/** The kernel calls and traps as the kernel runs them, one field update or list operation after the
    other, each up to the next context switch; their effect is the step of the step machine. */
module SysCalls {
  import opened Pipe
  import opened KernelState
  import opened Placement
  import opened Holding
  import opened Family
  import opened KernelInvariant
  import opened KernelSteps
  import opened ExitSteps
  import opened CallSteps
  import opened DataSteps
  import opened TtySteps
  import opened KernelRuns
  import opened StepEffects
  import opened QueueRuns
  import opened TtyRuns
  import opened Outcomes
  import opened HandOvers
  import opened ReturnRuns

  class Kernel {
    var mode: Mode
    var current: Pid
    var procs: map<Pid, Proc>
    var queues: map<Place, seq<Pid>>
    var locks: map<Id, Lock>
    var cvars: set<Id>
    var pipes: map<Id, PipeBuffer>
    var linked: set<Id>
    var lines: map<nat, seq<seq<Byte>>>
    var busy: map<nat, seq<Byte>>
    var nextPid: Pid
    var nextId: Id

    ghost function Abs(): State
      reads this
    {
      State(mode, current, procs, queues, locks, cvars, pipes, linked, lines, busy, nextPid, nextId)
    }

    /** KernelStart, up to the first switch. */
    constructor ()
      ensures Abs() == BOOT
    {
      mode, current := Running, IDLE;
      procs := map[IDLE := NewProc(User, NoParent), INIT := NewProc(Preempted, NoParent)];
      queues := map[Ready := [INIT]];
      locks, cvars, pipes, linked, lines, busy := map[], {}, map[], {}, map[], map[];
      nextPid, nextId := 2, 1;
    }

    function Queue(a: Place): (q: seq<Pid>)
      reads this
      ensures q == Q(Abs(), a)
    {
      if a in queues then queues[a] else []
    }

    // ---- lists ----

    method ListAppend(a: Place, p: Pid)
      modifies this`queues
      ensures Abs() == Append(old(Abs()), a, p)
    {
      queues := queues[a := Queue(a) + [p]];
    }

    method ListDequeue(a: Place) returns (p: Pid)
      requires Queue(a) != []
      modifies this`queues
      ensures p == old(Queue(a))[0] && Abs() == SetQ(old(Abs()), a, old(Queue(a))[1..])
    {
      p := Queue(a)[0];
      queues := queues[a := Queue(a)[1..]];
    }

    method SwitchToNextProc()
      modifies this`queues, this`current
      ensures Abs() == Dispatch(old(Abs()))
    {
      if Queue(Ready) == [] {
        current := IDLE;
      } else {
        current := ListDequeue(Ready);
      }
    }

    /** The call returns to the user program. */
    method UserReturn(rc: int)
      requires current in procs
      modifies this`procs
      ensures Abs() == Return(old(Abs()), rc)
    {
      procs := procs[current := procs[current].(pc := User, rc := rc)];
    }

    /** The caller joins a list and gives up the CPU; it will resume at `pc`. */
    method BlockOn(a: Place, pc: Resume)
      requires current in procs
      modifies this`procs, this`queues, this`current
      ensures Abs() == Block(old(Abs()), a, pc)
    {
      procs := procs[current := procs[current].(pc := pc)];
      ListAppend(a, current);
      SwitchToNextProc();
    }

    // ---- processes ----

    method KernelFork(memory: bool)
      requires Calling(Abs())
      modifies this
      ensures Abs() == Fork(old(Abs()), memory) && ForkOutcome(old(Abs()), Abs(), memory)
    {
      ForkMeans(Abs(), memory);
      var child := nextPid;
      nextPid := nextPid + 1;
      if !memory {
        UserReturn(ERROR);
        return;
      }
      assert child !in procs by {
        assert Look(0);
      }
      StartChild(child);
    }

    /** The control block of the child, and the switch to it. */
    method StartChild(child: Pid)
      requires current in procs && child !in procs
      modifies this`procs, this`queues, this`current
      ensures Abs() == Fork(old(Abs()).(nextPid := child), true).(nextPid := old(nextPid))
    {
      ghost var s := Abs();
      var parent := current;
      procs := procs[child := NewProc(AfterFork(child), Parent(parent))];
      procs := procs[parent := procs[parent].(live := procs[parent].live + [child], pc := AfterFork(child))];
      ListAppend(Ready, parent);
      current := child;
      assert procs == Fork(s.(nextPid := child), true).procs;
    }

    method KernelWait()
      requires Calling(Abs())
      modifies this
      ensures Abs() == Wait(old(Abs())) && WaitOutcome(old(Abs()), Abs())
    {
      WaitMeans(Abs());
      var me := procs[current];
      if me.zombies != [] {
        CollectChild();
      } else if me.live == [] {
        UserReturn(ERROR);
      } else {
        procs := procs[current := me.(waiting := true, pc := AfterWait)];
        SwitchToNextProc();
      }
    }

    /** Dequeues the oldest zombie, takes its exit status and frees it. */
    method CollectChild()
      requires Between(Abs()) && current in procs && procs[current].zombies != []
      modifies this`procs
      ensures Abs() == Collect(old(Abs()))
    {
      var child := procs[current].zombies[0];
      assert child in procs && child != current by {
        assert Look(0);
        assert ListsOk(Abs(), current) && child in procs[current].zombies;
      }
      procs := procs[current := procs[current].(zombies := procs[current].zombies[1..])];
      procs := procs[current := procs[current].(status := procs[child].exitStatus)];
      procs := procs - {child};
      UserReturn(SUCCESS);
      assert procs == Collect(old(Abs())).procs;
    }

    method Sleep(ticks: nat)
      requires current in procs && ticks > 0
      modifies this`procs, this`queues, this`current
      ensures Abs() == Delay(old(Abs()), ticks)
    {
      procs := procs[current := procs[current].(ticks := ticks)];
      BlockOn(Delayed, AfterDelay);
    }

    method KernelDelay(ticks: int)
      requires Calling(Abs())
      modifies this
      ensures Abs() == Delay(old(Abs()), ticks) && DelayOutcome(old(Abs()), Abs(), ticks)
    {
      DelayMeans(Abs(), ticks);
      if ticks < 0 {
        UserReturn(ERROR);
      } else if ticks == 0 {
        UserReturn(SUCCESS);
      } else {
        Sleep(ticks);
      }
    }

    // ---- locks ----

    method KernelAcquire(id: Id)
      requires CallsAgain(Abs())
      modifies this
      ensures Abs() == Acquire(old(Abs()), id) && AcquireOutcome(old(Abs()), Abs(), id)
    {
      AcquireMeans(Abs(), id);
      if id !in linked || id !in locks {
        UserReturn(ERROR);
      } else if locks[id].acquired && locks[id].owner == current {
        UserReturn(SUCCESS);
      } else if !locks[id].acquired {
        locks := locks[id := Lock(true, current)];
        procs := procs[current := procs[current].(owned := procs[current].owned + [id])];
        UserReturn(SUCCESS);
      } else {
        BlockOn(LockWait(id), AfterAcquire(id));
      }
    }

    /** KernelRelease; `rc` is its result, which its callers in the kernel use too. */
    method KernelRelease(id: Id) returns (rc: int)
      requires Between(Abs()) && current in procs
      modifies this`procs, this`locks, this`queues
      ensures rc == (if CanRelease(old(Abs()), id) then SUCCESS else ERROR)
      ensures Abs() == if CanRelease(old(Abs()), id) then Unlock(old(Abs()), id) else old(Abs())
    {
      if id !in linked || id !in locks {
        return ERROR;
      }
      if !locks[id].acquired || locks[id].owner != current {
        return ERROR;
      }
      ghost var s := Abs();
      HeldOwned(s, id);
      assert id in procs[current].owned && id != 0;
      procs := procs[current := procs[current].(owned := Without(procs[current].owned, id))];
      if Queue(LockWait(id)) == [] {
        locks := locks[id := locks[id].(acquired := false)];
        return SUCCESS;
      }
      assert Queue(LockWait(id))[0] in procs by {
        assert Look(0);
        Waiter(s, id);
      }
      var unblocked := ListDequeue(LockWait(id));
      locks := locks[id := Lock(true, unblocked)];
      procs := procs[unblocked := procs[unblocked].(owned := procs[unblocked].owned + [id])];
      ListAppend(Ready, unblocked);
      return SUCCESS;
    }

    method KernelReclaim(id: Id)
      requires Calling(Abs())
      modifies this
      ensures Abs() == Reclaim(old(Abs()), id)
    {
      OneKind(Abs(), id);
      var found := id in linked;
      linked := linked - {id};
      if found {
        CheckIdle(id);
      } else {
        UserReturn(ERROR);
      }
    }

    /** The checks of KernelReclaim on a resource that it has just taken off the kernel's lists. */
    method CheckIdle(id: Id)
      requires current in procs && (id in locks || id in cvars || id in pipes)
      requires (id in locks ==> id !in cvars && id !in pipes) && (id in cvars ==> id !in pipes)
      modifies this`procs
      ensures Abs() == Return(old(Abs()), if Idle(old(Abs()), id) then SUCCESS else ERROR)
    {
      if id in locks {
        if locks[id].acquired {
          UserReturn(ERROR);
          return;
        }
        if Queue(LockWait(id)) != [] {
          UserReturn(ERROR);
          return;
        }
      } else if id in cvars {
        if Queue(CvarWait(id)) != [] {
          UserReturn(ERROR);
          return;
        }
      } else {
        if Queue(PipeWait(id)) != [] {
          UserReturn(ERROR);
          return;
        }
      }
      UserReturn(SUCCESS);
    }

    // ---- condition variables ----

    method KernelCvarSignal(id: Id)
      requires Calling(Abs())
      modifies this
      ensures Abs() == Signal(old(Abs()), id) && SignalOutcome(old(Abs()), Abs(), id)
    {
      SignalMeans(Abs(), id);
      if id !in linked || id !in cvars {
        UserReturn(ERROR);
        return;
      }
      if Queue(CvarWait(id)) == [] {
        UserReturn(SUCCESS);
        return;
      }
      ghost var q := Queue(CvarWait(id));
      assert Without(q, q[0]) == q[1..];
      var waiting := ListDequeue(CvarWait(id));
      ListAppend(Ready, waiting);
      UserReturn(SUCCESS);
    }

    method KernelCvarBroadcast(id: Id)
      requires Calling(Abs())
      modifies this
      ensures Abs() == Broadcast(old(Abs()), id) && BroadcastOutcome(old(Abs()), Abs(), id)
    {
      BroadcastMeans(Abs(), id);
      if id !in linked || id !in cvars {
        UserReturn(ERROR);
        return;
      }
      WakeAll(id);
      UserReturn(SUCCESS);
    }

    /** The loop of KernelCvarBroadcast. */
    method WakeAll(id: Id)
      modifies this`queues
      ensures Abs() == if Q(old(Abs()), CvarWait(id)) == [] then old(Abs()) else Broadcasts(old(Abs()), id)
    {
      ghost var s, q, k := Abs(), Queue(CvarWait(id)), 0;
      DrainedQueues(s, id, 0);
      while Queue(CvarWait(id)) != []
        invariant k <= |q| && queues == Drained(s, id, k) && Queue(CvarWait(id)) == q[k..]
        decreases |q| - k
      {
        DrainedQueues(s, id, k);
        DrainedQueues(s, id, k + 1);
        DrainedStep(s, id, k);
        var waiting := ListDequeue(CvarWait(id));
        ListAppend(Ready, waiting);
        k := k + 1;
      }
      assert q[..k] == q && q[k..] == [];
    }

    method KernelCvarWait(id: Id, lock: Id)
      requires Calling(Abs())
      modifies this
      ensures Abs() == WaitOnCvar(old(Abs()), id, lock) && CvarWaitOutcome(old(Abs()), Abs(), id, lock)
    {
      CvarWaitMeans(Abs(), id, lock);
      ghost var s := Abs();
      if id !in linked || id !in cvars {
        UserReturn(ERROR);
        return;
      }
      var rc := KernelRelease(lock);
      if rc == ERROR {
        UserReturn(ERROR);
        return;
      }
      UnlockGone(s, lock);
      BlockOn(CvarWait(id), AfterCvarWait(id, lock));
    }

    // ---- exit ----

    /** The loop over the owned locks. It takes the oldest lock until none is left. When KernelRelease
        fails nothing has changed, so the loop goes on with the same lock for ever. */
    method ReleaseOwned()
      requires CallsAgain(Abs()) && mode == Running
      modifies this`procs, this`locks, this`queues, this`mode
      ensures Abs() == ReleaseAll(old(Abs()), old(procs)[old(current)].owned)
      ensures mode == Hung || (mode == Running && CallsAgain(Abs()) && procs[current].owned == [])
    {
      ghost var s, owned := Abs(), procs[current].owned;
      while procs[current].owned != []
        invariant CallsAgain(Abs()) && mode == Running
        invariant ReleaseAll(Abs(), procs[current].owned) == ReleaseAll(s, owned)
        decreases |procs[current].owned|
      {
        ghost var s1 := Abs();
        var id := procs[current].owned[0];
        OwnedFirst(s1);
        UnlockInv(s1, id);
        var rc := KernelRelease(id);
        if rc == ERROR {
          mode := Hung;
          return;
        }
        assert procs[current].owned == s1.procs[current].owned[1..];
      }
    }

    /** The oldest live child loses its parent; it is the `i`-th of the list in state `s`. */
    method OrphanOne(ghost s: State, ghost i: nat)
      requires Children(s) && i < |s.procs[s.current].live| && current == s.current && Orphaned(s, procs, i, 0)
      requires current in procs && procs[current].live == s.procs[s.current].live[i..]
      modifies this`procs
      ensures Orphaned(s, procs, i + 1, 0)
      ensures current in procs && procs[current].live == s.procs[s.current].live[i + 1..]
    {
      OrphanedLive(s, procs, i);
      var me := procs[current];
      var child := me.live[0];
      procs := procs[current := me.(live := me.live[1..])][child := procs[child].(parent := NoParent)];
    }

    /** The live children lose their parent. */
    method OrphanLive()
      requires Children(Abs())
      modifies this`procs
      ensures Abs() == old(Abs()).(procs := procs) && Orphaned(old(Abs()), procs, |old(procs[current].live)|, 0)
    {
      ghost var s, live, i := Abs(), procs[current].live, 0;
      while procs[current].live != []
        invariant i <= |live| && Orphaned(s, procs, i, 0)
        invariant current in procs && procs[current].live == live[i..]
        decreases |live| - i
      {
        OrphanOne(s, i);
        i := i + 1;
      }
      assert i == |live|;
    }

    /** The zombies are freed. */
    method FreeZombies(ghost s: State)
      requires Children(s) && Abs() == s.(procs := procs) && Orphaned(s, procs, |s.procs[s.current].live|, 0)
      modifies this`procs
      ensures Abs() == Orphan(s)
    {
      ghost var zombies, i, j := s.procs[s.current].zombies, |s.procs[s.current].live|, 0;
      OrphanedSelf(s, procs, i);
      while procs[current].zombies != []
        invariant j <= |zombies| && Abs() == s.(procs := procs) && Orphaned(s, procs, i, j)
        invariant current in procs && procs[current].zombies == zombies[j..]
        decreases |zombies| - j
      {
        OrphanedZombie(s, procs, i, j);
        var child := procs[current].zombies[0];
        procs := procs[current := procs[current].(zombies := procs[current].zombies[1..])];
        procs := procs - {child};
        j := j + 1;
      }
      assert j == |zombies|;
      OrphanedAll(s, procs);
    }

    /** The last act of the process: its control block goes to its parent or is freed. */
    method LeaveFamily(status: int)
      requires current in procs
      requires procs[current].parent.Parent? ==> procs[current].parent.pid in procs && procs[current].parent.pid != current
      modifies this`procs, this`queues
      ensures Abs() == Bury(old(Abs()), status)
    {
      ghost var s := Abs();
      var parent := procs[current].parent;
      if parent.Parent? {
        procs := procs[current := procs[current].(exitStatus := status, alive := false)];
        var pp := procs[parent.pid];
        procs := procs[parent.pid := pp.(live := Without(pp.live, current), zombies := pp.zombies + [current], waiting := false)];
        if pp.waiting {
          ListAppend(Ready, parent.pid);
        }
      } else {
        procs := procs - {current};
      }
    }

    method KernelExit(status: int)
      requires CallsAgain(Abs()) && mode == Running
      modifies this
      ensures Abs() == Exit(old(Abs()), status)
      ensures old(current) != INIT && mode != Hung ==> ExitOutcome(old(Abs()), Abs())
    {
      ghost var s0 := Abs();
      if current != INIT && Exit(s0, status).mode != Hung {
        ExitMeans(s0, status, Exit(s0, status));
      }
      if current == INIT {
        mode := Halted;
        return;
      }
      ReleaseAllInv(Abs());
      ReleaseOwned();
      if mode == Hung {
        return;
      }
      OrphanInv(Abs());
      ghost var s := Abs();
      ChildrenThere(s);
      OrphanLive();
      FreeZombies(s);
      ParentThere(Abs());
      LeaveFamily(status);
      SwitchToNextProc();
    }

    // ---- pipes ----

    /** One turn of the loop of KernelPipeRead: block, or take the bytes. */
    method ReadOrBlock(id: Id, len: nat)
      requires current in procs && id in pipes && pipes[id].Valid()
      modifies this
      ensures Abs() == ReadLoop(old(Abs()), id, len)
    {
      var b := pipes[id];
      if b.available < len {
        BlockOn(PipeWait(id), AfterPipeRead(id, len));
        return;
      }
      procs := procs[current := procs[current].(data := b.cells[b.offset..b.offset + b.available][..len])];
      var rest := b.available - len;
      pipes := pipes[id := b.(offset := if rest == 0 then 0 else b.offset + len, available := rest)];
      UserReturn(len);
    }

    method KernelPipeRead(id: Id, len: int)
      requires Calling(Abs())
      modifies this
      ensures Abs() == PipeRead(old(Abs()), id, len) && PipeReadOutcome(old(Abs()), Abs(), id, len)
    {
      PipeReadMeans(Abs(), id, len);
      if len < 0 {
        UserReturn(ERROR);
      } else if len == 0 {
        UserReturn(SUCCESS);
      } else if id !in linked || id !in pipes {
        UserReturn(ERROR);
      } else {
        PipesValid(Abs());
        ReadOrBlock(id, len);
      }
    }

    /** The search of ListFindFirstLessThanIdAndRemove through a pipe's readers. */
    method FindFirstSatisfied(q: seq<Pid>, available: nat) returns (found: seq<Pid>)
      ensures found == FirstSatisfied(Abs(), q, available)
    {
      var i := 0;
      while i < |q|
        invariant i <= |q| && FirstSatisfied(Abs(), q, available) == FirstSatisfied(Abs(), q[i..], available)
      {
        var wanted := if q[i] in procs && procs[q[i]].pc.AfterPipeRead? then procs[q[i]].pc.len else 0;
        if wanted <= available {
          return [q[i]];
        }
        i := i + 1;
      }
      return [];
    }

    /** The buffer grows if the bytes do not fit, and takes them. */
    method FillBuffer(id: Id, bytes: seq<Byte>)
      requires id in pipes && pipes[id].Valid()
      modifies this`pipes
      ensures Abs() == old(Abs()).(pipes := old(pipes)[id := WriteBuffer(old(pipes)[id], bytes)])
    {
      var b := pipes[id];
      if |bytes| > |b.cells| - b.available - b.offset {
        var unread := b.cells[b.offset..b.offset + b.available];
        b := PipeBuffer(unread + seq(|bytes|, _ => 0), 0, b.available);
      }
      assert |bytes| <= |b.cells| - b.available - b.offset;
      b := b.(cells := Patch(b.cells, b.offset + b.available, bytes), available := b.available + |bytes|);
      WriteMatches(pipes[id], bytes);
      pipes := pipes[id := b];
    }

    method KernelPipeWrite(id: Id, bytes: seq<Byte>)
      requires Calling(Abs())
      modifies this
      ensures Abs() == PipeWrite(old(Abs()), id, bytes)
    {
      if bytes == [] {
        UserReturn(SUCCESS);
        return;
      }
      if id !in linked || id !in pipes {
        UserReturn(ERROR);
        return;
      }
      ghost var s := Abs();
      PipesValid(s);
      FillBuffer(id, bytes);
      var found := FindFirstSatisfied(Queue(PipeWait(id)), pipes[id].available);
      SameSatisfied(s, Abs(), Queue(PipeWait(id)), pipes[id].available);
      if found != [] {
        queues := queues[PipeWait(id) := Without(Queue(PipeWait(id)), found[0])];
        ListAppend(Ready, found[0]);
      }
      UserReturn(|bytes|);
    }

    // ---- terminals ----

    /** The hardware takes a chunk; it must not be given another one before it interrupts. */
    method TtyTransmitChunk(t: nat, chunk: seq<Byte>)
      modifies this`busy, this`mode
      ensures Abs() == Transmit(old(Abs()), t, chunk)
    {
      if t in busy {
        mode := Panic;
      } else {
        busy := busy[t := chunk];
      }
    }

    /** TtyTransmit with at most TERMINAL_MAX_LINE bytes. */
    method TransmitMinimum(t: nat, bytes: seq<Byte>)
      modifies this`busy, this`mode
      ensures Abs() == Transmit(old(Abs()), t, Chunk(bytes))
    {
      if TERMINAL_MAX_LINE > |bytes| {
        TtyTransmitChunk(t, bytes);
      } else {
        assert |bytes| == TERMINAL_MAX_LINE ==> bytes[..TERMINAL_MAX_LINE] == bytes;
        TtyTransmitChunk(t, bytes[..TERMINAL_MAX_LINE]);
      }
    }

    method KernelTtyWriteInternal(t: nat, bytes: seq<Byte>, kill: bool)
      requires Calling(Abs()) && t <= NUM_TERMINALS
      modifies this
      ensures Abs() == TtyWrite(old(Abs()), t, bytes, kill) && WriteOutcome(old(Abs()), Abs(), t, bytes)
    {
      WriteMeans(Abs(), t, bytes, kill, TtyWrite(Abs(), t, bytes, kill));
      procs := procs[current := procs[current].(tx := bytes)];
      var queuePrevEmpty := Queue(TtyTransmit(t)) == [];
      if queuePrevEmpty {
        TransmitMinimum(t, bytes);
      }
      BlockOn(TtyTransmit(t), AfterTtyWrite(t, |bytes|, kill));
    }

    method KernelTtyWrite(t: int, bytes: seq<Byte>)
      requires Calling(Abs())
      modifies this
      ensures Enabled(old(Abs()), ETtyWrite(t, bytes)) && Abs() == Step(old(Abs()), ETtyWrite(t, bytes))
      ensures if 0 <= t < NUM_TERMINALS then WriteOutcome(old(Abs()), Abs(), t, bytes)
        else Returned(old(Abs()), Abs(), ERROR) && SameLists(old(Abs()), Abs()) && Discreet(old(Abs()), Abs(), Ready)
    {
      if t < 0 || t >= NUM_TERMINALS {
        CallingFromUser(Abs());
        ReturnedOutcome(Abs(), ERROR);
        UserReturn(ERROR);
        return;
      }
      KernelTtyWriteInternal(t, bytes, false);
    }

    /** The branch of KernelTtyRead for a terminal without a line: the caller waits with a buffer. */
    method AwaitLine(t: nat, len: nat)
      requires current in procs && t < NUM_TERMINALS && Lines(Abs(), t) == []
      modifies this`procs, this`queues, this`current
      ensures Abs() == TtyRead(old(Abs()), t, len)
    {
      procs := procs[current := procs[current].(rxBuffer := true, rxLen := len, rx := [])];
      BlockOn(TtyReceive(t), AfterTtyRead(t));
    }

    /** The branch of KernelTtyRead for a terminal with a buffered line. */
    method ReadLine(t: nat, len: nat)
      requires current in procs && t < NUM_TERMINALS && t in lines && lines[t] != []
      modifies this`procs, this`lines
      ensures Abs() == TtyRead(old(Abs()), t, len)
    {
      var line := lines[t][0];
      var rest := lines[t][1..];
      if |line| > len {
        procs := procs[current := procs[current].(data := line[..len])];
        lines := lines[t := [line[..|line| - len]] + rest];
        UserReturn(len);
      } else {
        assert line[..|line|] == line;
        procs := procs[current := procs[current].(data := line)];
        lines := lines[t := rest];
        UserReturn(|line|);
      }
    }

    method KernelTtyRead(t: int, len: int)
      requires Calling(Abs())
      modifies this
      ensures Abs() == TtyRead(old(Abs()), t, len) && ReadOutcome(old(Abs()), Abs(), t, len)
    {
      ReadMeans(Abs(), t, len);
      if t < 0 || t >= NUM_TERMINALS {
        UserReturn(ERROR);
        return;
      }
      if len < 0 {
        UserReturn(ERROR);
        return;
      }
      if t in lines && lines[t] != [] {
        ReadLine(t, len);
        return;
      }
      AwaitLine(t, len);
    }

    /** One turn of the loop of TrapTtyRecieve: the oldest waiting reader takes what it asked for. */
    method ServeReader(t: nat, input: seq<Byte>) returns (remaining: seq<Byte>)
      requires Queue(TtyReceive(t)) != [] && Queue(TtyReceive(t))[0] in procs
      modifies this`procs, this`queues
      ensures var p := old(Queue(TtyReceive(t)))[0];
        Abs() == Served(old(Abs()), t, p, input)
        && remaining == input[if |input| <= old(procs)[p].rxLen then |input| else old(procs)[p].rxLen..]
    {
      ServedQueues(Abs(), t, input);
      ghost var q := Queue(TtyReceive(t));
      assert Without(q, q[0]) == q[1..];
      var p := ListDequeue(TtyReceive(t));
      ListAppend(Ready, p);
      if |input| <= procs[p].rxLen {
        assert input[..|input|] == input;
        procs := procs[p := procs[p].(rx := input, rxLen := |input|)];
        remaining := [];
      } else {
        var n := procs[p].rxLen;
        procs := procs[p := procs[p].(rx := input[..n])];
        remaining := input[n..];
      }
    }

    method TrapTtyReceive(t: nat, input: seq<Byte>)
      requires Between(Abs())
      modifies this
      ensures Abs() == Received(old(Abs()), t, input)
    {
      if Queue(TtyReceive(t)) == [] {
        lines := lines[t := (if t in lines then lines[t] else []) + [input]];
        return;
      }
      ghost var s := Abs();
      var remaining := input;
      ReadersThere(s, t);
      while Queue(TtyReceive(t)) != [] && remaining != []
        invariant Readers(Abs(), t) && Deliver(Abs(), t, remaining) == Deliver(s, t, input)
        decreases |Queue(TtyReceive(t))|
      {
        ServedReaders(Abs(), t, remaining);
        DeliverUnfolds(Abs(), t, remaining);
        remaining := ServeReader(t, remaining);
      }
      assert Queue(TtyReceive(t)) != [] ==> Queue(TtyReceive(t))[0] in Queue(TtyReceive(t));
      if remaining != [] {
        lines := lines[t := (if t in lines then lines[t] else []) + [remaining]];
      }
    }

    method TrapTtyTransmit(t: nat)
      requires Between(Abs()) && t in busy
      modifies this
      ensures Abs() == Transmitted(old(Abs()), t)
    {
      WritersThere(Abs(), t);
      ghost var q := Queue(TtyTransmit(t));
      assert Without(q, q[0]) == q[1..];
      busy := busy - {t};
      var p := Queue(TtyTransmit(t))[0];
      if |procs[p].tx| > TERMINAL_MAX_LINE {
        procs := procs[p := procs[p].(tx := procs[p].tx[TERMINAL_MAX_LINE..])];
        TransmitMinimum(t, procs[p].tx);
        return;
      }
      queues := queues[TtyTransmit(t) := Without(Queue(TtyTransmit(t)), p)];
      ListAppend(Ready, p);
      if Queue(TtyTransmit(t)) == [] {
        return;
      }
      var next := Queue(TtyTransmit(t))[0];
      TransmitMinimum(t, procs[next].tx);
    }

    // ---- the clock ----

    /** The callback of the clock: one tick less, and a process whose time is up moves to the ready
        queue. `i` says how many processes of the list in state `s` had their turn before. */
    method DecrementTicksRemaining(ghost s: State, ghost i: nat, p: Pid)
      requires Sleepers(s) && i < |Q(s, Delayed)| && p == Q(s, Delayed)[i] && TickedUpTo(s, Abs(), i)
      modifies this`procs, this`queues
      ensures TickedUpTo(s, Abs(), i + 1) && Abs() == old(Abs()).(procs := procs, queues := queues)
    {
      ghost var s' := Abs();
      TickedOne(s, s', i);
      procs := procs[p := procs[p].(ticks := procs[p].ticks - 1)];
      if procs[p].ticks <= 0 {
        queues := queues[Delayed := Without(Queue(Delayed), p)];
        ListAppend(Ready, p);
      }
      assert Abs() == OneTicked(s', p);
    }

    /** The traversal of the clock list while the callback takes processes off it: the next process is
        behind the one just called for, or in its place. `i` counts the calls. */
    method MapDelayed()
      requires Sleepers(Abs())
      modifies this`procs, this`queues
      ensures Abs() == Tick(old(Abs()))
    {
      ghost var s, d, i := Abs(), Queue(Delayed), 0;
      TickedNone(s);
      var at := 0;
      LiveDelayed(s, s, 0);
      while at < |Queue(Delayed)|
        invariant i <= |d| && TickedUpTo(s, Abs(), i)
        invariant at == |Remaining(s, d[..i])| && Queue(Delayed) == Remaining(s, d[..i]) + d[i..]
        decreases |d| - i
      {
        var p := Queue(Delayed)[at];
        DecrementTicksRemaining(s, i, p);
        LiveDelayed(s, Abs(), i + 1);
        LiveNext(s, i, p);
        i := i + 1;
        if at < |Queue(Delayed)| && Queue(Delayed)[at] == p {
          at := at + 1;
        }
      }
      TickedAll(s, Abs());
    }

    method TrapClock()
      requires Between(Abs()) && current in procs
      modifies this
      ensures Abs() == Clock(old(Abs()))
    {
      DelayedThere(Abs());
      MapDelayed();
      procs := procs[current := procs[current].(pc := Preempted)];
      if current != IDLE {
        ListAppend(Ready, current);
      }
      SwitchToNextProc();
    }

    // ---- the second halves of the calls that block ----

    /** A process that was switched to goes on behind the switch in its kernel call. */
    method Resume()
      requires Between(Abs()) && current in procs && procs[current].pc != User && mode == Running
      modifies this
      ensures Abs() == Continue(old(Abs())) && Between(Abs()) && ResumeOutcome(old(Abs()), Abs())
    {
      ResumeMeans(Abs());
      var me := procs[current];
      match me.pc
      case User =>
      case Preempted =>
        procs := procs[current := me.(pc := User)];
      case AfterFork(child) =>
        UserReturn(if child == current then 0 else child);
      case AfterWait =>
        WokenParent(Abs());
        CollectChild();
      case AfterDelay =>
        UserReturn(SUCCESS);
      case AfterAcquire(lock) =>
        WokenOwner(Abs());
        assert locks[lock].owner == current;
        assert locks[lock].acquired;
        assert lock in procs[current].owned && lock != 0;
        UserReturn(SUCCESS);
      case AfterCvarWait(_, lock) =>
        WokenCaller(Abs());
        KernelAcquire(lock);
      case AfterPipeRead(id, len) =>
        WokenReader(Abs());
        ReadOrBlock(id, len);
      case AfterTtyRead(_) =>
        procs := procs[current := me.(data := me.rx)];
        UserReturn(|me.rx|);
      case AfterTtyWrite(_, len, kill) =>
        if kill {
          WokenCaller(Abs());
          KernelExit(ERROR);
        } else {
          UserReturn(len);
        }
    }
  }

  /** The lists when the first `k` waiters of a condition variable are ready. */
  ghost function Drained(s: State, id: Id, k: nat): map<Place, seq<Pid>>
    requires k <= |Q(s, CvarWait(id))|
  {
    var q := Q(s, CvarWait(id));
    if k == 0 then s.queues else s.queues[Ready := Q(s, Ready) + q[..k]][CvarWait(id) := q[k..]]
  }

  lemma DrainedQueues(s: State, id: Id, k: nat)
    requires k <= |Q(s, CvarWait(id))|
    ensures var s' := s.(queues := Drained(s, id, k)); var q := Q(s, CvarWait(id));
      Q(s', CvarWait(id)) == q[k..] && Q(s', Ready) == Q(s, Ready) + q[..k]
  {
    assert Q(s, Ready) + [] == Q(s, Ready) && Q(s, CvarWait(id))[0..] == Q(s, CvarWait(id));
  }

  lemma DrainedStep(s: State, id: Id, k: nat)
    requires k < |Q(s, CvarWait(id))|
    ensures var q, m := Q(s, CvarWait(id)), Drained(s, id, k);
      m[CvarWait(id) := q[k..][1..]][Ready := Q(s, Ready) + q[..k] + [q[k]]] == Drained(s, id, k + 1)
  {
    var q := Q(s, CvarWait(id));
    assert Q(s, Ready) + q[..k] + [q[k]] == Q(s, Ready) + q[..k + 1] && q[k..][1..] == q[k + 1..];
  }

  /** A resource is of one kind. */
  lemma OneKind(s: State, id: Id)
    requires Between(s)
    ensures (id in s.locks ==> id !in s.cvars && id !in s.pipes) && (id in s.cvars ==> id !in s.pipes)
    ensures id in s.linked ==> id in s.locks || id in s.cvars || id in s.pipes
  {
    assert Look(0);
  }

  /** The oldest owned lock can be released if it is on the kernel's list. */
  lemma OwnedFirst(s: State)
    requires CallsAgain(s) && s.procs[s.current].owned != []
    ensures var id := s.procs[s.current].owned[0];
      Holds(s, s.current, id) && Without(s.procs[s.current].owned, id) == s.procs[s.current].owned[1..]
  {
    assert Look(0);
    assert OwnedOk(s, s.current) && s.procs[s.current].owned[0] in s.procs[s.current].owned;
  }

  lemma ParentThere(s: State)
    requires Between(s)
    ensures var parent := s.procs[s.current].parent; parent.Parent? ==> parent.pid in s.procs && parent.pid != s.current
  {
    assert Look(0);
    assert ParentOk(s, s.current);
  }

  lemma ChildrenThere(s: State)
    requires Between(s)
    ensures Children(s)
  {
    assert Look(0);
    assert ListsOk(s, s.current) && ParentOk(s, s.current);
  }

  /** The process table when the first `i` live children have lost their parent and the first `j`
      zombies are freed. */
  ghost predicate Orphaned(s: State, procs: map<Pid, Proc>, i: nat, j: nat)
    requires s.current in s.procs && i <= |s.procs[s.current].live| && j <= |s.procs[s.current].zombies|
  {
    forall k: nat | Look(k) ::
      (forall c :: c in procs <==> c in s.procs && (c == s.current || c !in s.procs[s.current].zombies[..j]))
      && forall c | c in procs :: procs[c] == OrphanedProc(s, c, i, j)
  }

  ghost function OrphanedProc(s: State, c: Pid, i: nat, j: nat): Proc
    requires s.current in s.procs && c in s.procs && i <= |s.procs[s.current].live| && j <= |s.procs[s.current].zombies|
  {
    var me := s.procs[s.current];
    if c == s.current then me.(live := me.live[i..], zombies := me.zombies[j..])
    else if c in me.live[..i] then s.procs[c].(parent := NoParent)
    else s.procs[c]
  }

  /** The children of the running process. */
  ghost predicate Children(s: State) {
    s.current in s.procs
    && (forall c | c in s.procs[s.current].live :: c in s.procs && c != s.current)
    && (forall z | z in s.procs[s.current].zombies :: z in s.procs && z != s.current && z !in s.procs[s.current].live)
    && NoDup(s.procs[s.current].live) && NoDup(s.procs[s.current].zombies)
  }

  lemma {:induction false} NoDupAt(q: seq<nat>, i: nat)
    requires NoDup(q) && i < |q|
    ensures q[i] !in q[..i]
  {
    if i > 0 {
      NoDupAt(q[1..], i - 1);
      assert q[i] in q[1..] && q[..i] == [q[0]] + q[1..][..i - 1];
    }
  }

  lemma OrphanedLive(s: State, procs: map<Pid, Proc>, i: nat)
    requires Children(s) && i < |s.procs[s.current].live| && Orphaned(s, procs, i, 0)
    ensures s.current in procs && var me := procs[s.current]; me.live != [] && me.live[0] in procs && me.live[0] != s.current
    ensures var me := procs[s.current]; var child := me.live[0];
      Orphaned(s, procs[s.current := me.(live := me.live[1..])][child := procs[child].(parent := NoParent)], i + 1, 0)
  {
    var live := s.procs[s.current].live;
    assert Look(0);
    assert procs[s.current].live == live[i..] && live[i] in live;
    assert live[..i + 1] == live[..i] + [live[i]];
    NoDupAt(live, i);
  }

  lemma OrphanedSelf(s: State, procs: map<Pid, Proc>, i: nat)
    requires Children(s) && i <= |s.procs[s.current].live| && Orphaned(s, procs, i, 0)
    ensures s.current in procs && procs[s.current].zombies == s.procs[s.current].zombies
  {
    assert Look(0);
  }

  lemma OrphanedZombie(s: State, procs: map<Pid, Proc>, i: nat, j: nat)
    requires Children(s) && i <= |s.procs[s.current].live| && j < |s.procs[s.current].zombies| && Orphaned(s, procs, i, j)
    ensures s.current in procs && var me := procs[s.current]; me.zombies != [] && me.zombies[0] in procs && me.zombies[0] != s.current
    ensures var me := procs[s.current];
      Orphaned(s, procs[s.current := me.(zombies := me.zombies[1..])] - {me.zombies[0]}, i, j + 1)
  {
    var zombies := s.procs[s.current].zombies;
    assert Look(0);
    assert procs[s.current].zombies == zombies[j..] && zombies[j] in zombies;
    assert zombies[..j + 1] == zombies[..j] + [zombies[j]];
    NoDupAt(zombies, j);
  }

  lemma OrphanedAll(s: State, procs: map<Pid, Proc>)
    requires Children(s) && Orphaned(s, procs, |s.procs[s.current].live|, |s.procs[s.current].zombies|)
    ensures procs == Orphan(s).procs
  {
    var me := s.procs[s.current];
    assert Look(0);
    assert me.live[..|me.live|] == me.live && me.zombies[..|me.zombies|] == me.zombies;
    assert me.live[|me.live|..] == [] && me.zombies[|me.zombies|..] == [];
  }

  lemma PipesValid(s: State)
    requires Between(s)
    ensures forall id | id in s.pipes :: s.pipes[id].Valid()
  {
    assert Look(0);
  }

  /** Growing the buffer first and then copying is what WriteBuffer says. */
  lemma WriteMatches(b: PipeBuffer, bytes: seq<Byte>)
    requires b.Valid()
    ensures Patch(b.Unread() + seq(|bytes|, _ => 0), b.available, bytes) == b.Unread() + bytes
  {
    var cells := b.Unread() + seq(|bytes|, _ => 0 as Byte);
    assert cells[..b.available] == b.Unread() && cells[b.available + |bytes|..] == [];
  }

  lemma {:induction false} SameSatisfied(s: State, s': State, q: seq<Pid>, available: nat)
    requires s'.procs == s.procs
    ensures FirstSatisfied(s', q, available) == FirstSatisfied(s, q, available)
  {
    if q != [] {
      SameSatisfied(s, s', q[1..], available);
    }
  }

  // ---- the traversal of the clock list ----

  ghost function OneTicked(s: State, p: Pid): State
    requires p in s.procs
  {
    var s1 := SetProc(s, p, s.procs[p].(ticks := s.procs[p].ticks - 1));
    if s1.procs[p].ticks <= 0 then Wake(s1, Delayed, p) else s1
  }

  /** The state when the first `i` delayed processes have lost their tick. */
  ghost predicate TickedUpTo(s: State, s': State, i: nat)
    requires i <= |Q(s, Delayed)|
  {
    forall k: nat | Look(k) ::
      s' == s.(procs := s'.procs, queues := s'.queues) && TickedProcs(s, s'.procs, Q(s, Delayed)[..i]) && TickedQueues(s, s', i)
  }

  ghost predicate TickedProcs(s: State, procs: map<Pid, Proc>, done: seq<Pid>) {
    procs.Keys == s.procs.Keys
    && forall p | p in s.procs :: procs[p] == if p in done then s.procs[p].(ticks := s.procs[p].ticks - 1) else s.procs[p]
  }

  /** The lists when `stay` are left on the clock list and `go` have become ready. */
  ghost function ClockQueues(s: State, stay: seq<Pid>, go: seq<Pid>): map<Place, seq<Pid>> {
    if go == [] then s.queues else s.queues[Delayed := stay][Ready := Q(s, Ready) + go]
  }

  ghost predicate TickedQueues(s: State, s': State, i: nat)
    requires i <= |Q(s, Delayed)|
  {
    var done, rest := Q(s, Delayed)[..i], Q(s, Delayed)[i..];
    s'.queues == ClockQueues(s, Remaining(s, done) + rest, Expired(s, done))
  }

  ghost predicate Sleepers(s: State) {
    NoDup(Q(s, Delayed)) && forall p | p in Q(s, Delayed) :: p in s.procs
  }

  lemma DelayedThere(s: State)
    requires Between(s)
    ensures Sleepers(s)
  {
    assert Look(0);
    forall p | p in Q(s, Delayed) ensures p in s.procs {
      assert Listed(s, s.current, Delayed, p);
    }
  }

  lemma TickedNone(s: State)
    ensures TickedUpTo(s, s, 0)
  {
  }

  lemma {:induction false} ExpiredAppend(s: State, q: seq<Pid>, p: Pid)
    ensures Expired(s, q + [p]) == Expired(s, q) + (if TicksOf(s, p) <= 1 then [p] else [])
  {
    if q == [] {
      assert q + [p] == [p] && [p][1..] == [];
    } else {
      var first := if TicksOf(s, q[0]) <= 1 then [q[0]] else [];
      ExpiredAppend(s, q[1..], p);
      assert (q + [p])[1..] == q[1..] + [p] && (q + [p])[0] == q[0];
      assert Expired(s, q + [p]) == first + Expired(s, q[1..] + [p]);
    }
  }

  lemma {:induction false} RemainingAppend(s: State, q: seq<Pid>, p: Pid)
    ensures Remaining(s, q + [p]) == Remaining(s, q) + (if TicksOf(s, p) <= 1 then [] else [p])
  {
    if q == [] {
      assert q + [p] == [p] && [p][1..] == [];
    } else {
      var first := if TicksOf(s, q[0]) <= 1 then [] else [q[0]];
      RemainingAppend(s, q[1..], p);
      assert (q + [p])[1..] == q[1..] + [p] && (q + [p])[0] == q[0];
      assert Remaining(s, q + [p]) == first + Remaining(s, q[1..] + [p]);
    }
  }

  lemma {:induction false} WithoutMiddle(a: seq<nat>, x: nat, b: seq<nat>)
    requires x !in a
    ensures Without(a + [x] + b, x) == a + b
  {
    if a == [] {
      assert [] + [x] + b == [x] + b && ([x] + b)[1..] == b && [] + b == b;
    } else {
      WithoutMiddle(a[1..], x, b);
      assert (a + [x] + b)[1..] == a[1..] + [x] + b && [a[0]] + (a[1..] + b) == a + b;
    }
  }

  lemma {:induction false} RemainingIn(s: State, q: seq<Pid>)
    ensures forall p | p in Remaining(s, q) :: p in q
  {
    if q != [] {
      RemainingIn(s, q[1..]);
    }
  }

  lemma MoveQueue(s: State, s': State, stay: seq<Pid>, go: seq<Pid>, p: Pid)
    requires s'.queues == ClockQueues(s, stay, go) && (go == [] ==> stay == Q(s, Delayed))
    ensures Wake(s', Delayed, p).queues == ClockQueues(s, Without(stay, p), go + [p])
  {
    assert Q(s', Delayed) == stay;
    assert Q(s', Ready) + [p] == Q(s, Ready) + (go + [p]);
  }

  /** A process whose time is not up stays where it is; one whose time is up goes from the middle
      of the list to the ready queue. */
  lemma OneQueued(s: State, s1: State, i: nat, p: Pid)
    requires i < |Q(s, Delayed)| && p == Q(s, Delayed)[i] && NoDup(Q(s, Delayed)) && TickedQueues(s, s1, i)
    ensures TickedQueues(s, if TicksOf(s, p) > 1 then s1 else Wake(s1, Delayed, p), i + 1)
  {
    var d := Q(s, Delayed);
    var done, rest := d[..i], d[i + 1..];
    SplitAround(d, i);
    ExpiredAppend(s, done, p);
    RemainingAppend(s, done, p);
    if TicksOf(s, p) > 1 {
      assert Remaining(s, done) + [p] + rest == Remaining(s, done) + d[i..] && Expired(s, done) + [] == Expired(s, done);
    } else {
      assert Remaining(s, done) + [] == Remaining(s, done);
      OneGone(s, s1, done, p, rest);
    }
  }

  lemma SplitAround(d: seq<Pid>, i: nat)
    requires i < |d|
    ensures d[..i + 1] == d[..i] + [d[i]] && d[i..] == [d[i]] + d[i + 1..]
    ensures d == d[..i] + d[i..] && d == d[..i] + [d[i]] + d[i + 1..]
  {
  }

  lemma OneGone(s: State, s1: State, done: seq<Pid>, p: Pid, rest: seq<Pid>)
    requires Q(s, Delayed) == done + [p] + rest && NoDup(Q(s, Delayed))
    requires s1.queues == ClockQueues(s, Remaining(s, done) + ([p] + rest), Expired(s, done))
    ensures Wake(s1, Delayed, p).queues == ClockQueues(s, Remaining(s, done) + rest, Expired(s, done) + [p])
  {
    NoDupAt(Q(s, Delayed), |done|);
    assert Q(s, Delayed)[..|done|] == done;
    RemainingIn(s, done);
    if Expired(s, done) == [] {
      NoneExpired(s, done);
    }
    assert Remaining(s, done) + [p] + rest == Remaining(s, done) + ([p] + rest) && done + [p] + rest == done + ([p] + rest);
    WithoutMiddle(Remaining(s, done), p, rest);
    MoveQueue(s, s1, Remaining(s, done) + ([p] + rest), Expired(s, done), p);
  }

  lemma TickedOne(s: State, s': State, i: nat)
    requires Sleepers(s) && i < |Q(s, Delayed)| && TickedUpTo(s, s', i)
    ensures Q(s, Delayed)[i] in s'.procs && TickedUpTo(s, OneTicked(s', Q(s, Delayed)[i]), i + 1)
  {
    var d := Q(s, Delayed);
    assert Look(0);
    assert d[i] in d;
    OneProc(s, s'.procs, i, d[i]);
    var f := s'.procs[d[i]].(ticks := s'.procs[d[i]].ticks - 1);
    OneQueued(s, SetProc(s', d[i], f), i, d[i]);
  }

  lemma OneProc(s: State, procs: map<Pid, Proc>, i: nat, p: Pid)
    requires Sleepers(s) && i < |Q(s, Delayed)| && p == Q(s, Delayed)[i] && TickedProcs(s, procs, Q(s, Delayed)[..i])
    ensures p in s.procs && p in procs && procs[p] == s.procs[p]
    ensures TickedProcs(s, procs[p := procs[p].(ticks := procs[p].ticks - 1)], Q(s, Delayed)[..i + 1])
  {
    var d := Q(s, Delayed);
    assert d[i] in d && d[..i + 1] == d[..i] + [d[i]];
    NoDupAt(d, i);
  }

  /** What is left of the clock list after `i` calls. */
  lemma LiveDelayed(s: State, s': State, i: nat)
    requires i <= |Q(s, Delayed)| && TickedUpTo(s, s', i)
    ensures Q(s', Delayed) == Remaining(s, Q(s, Delayed)[..i]) + Q(s, Delayed)[i..]
  {
    var d := Q(s, Delayed);
    assert Look(0);
    assert d == d[..i] + d[i..];
    if Expired(s, d[..i]) == [] {
      NoneExpired(s, d[..i]);
    }
  }

  /** The process just called for is still in its place exactly when it has ticks left. */
  lemma LiveNext(s: State, i: nat, p: Pid)
    requires Sleepers(s) && i < |Q(s, Delayed)| && p == Q(s, Delayed)[i]
    ensures var d := Q(s, Delayed);
      var at, rest := |Remaining(s, d[..i])|, Remaining(s, d[..i + 1]) + d[i + 1..];
      if at < |rest| && rest[at] == p then |Remaining(s, d[..i + 1])| == at + 1 else |Remaining(s, d[..i + 1])| == at
  {
    var d := Q(s, Delayed);
    assert d[..i + 1] == d[..i] + [p];
    RemainingAppend(s, d[..i], p);
    if i + 1 < |d| {
      NoDupDiffer(d, i, i + 1);
    }
  }

  lemma NoDupDiffer(q: seq<nat>, i: nat, j: nat)
    requires NoDup(q) && i < j < |q|
    ensures q[i] != q[j]
  {
    NoDupAt(q, j);
    assert q[i] in q[..j];
  }

  lemma TickedAll(s: State, s': State)
    requires TickedUpTo(s, s', |Q(s, Delayed)|)
    ensures s' == Tick(s)
  {
    var d := Q(s, Delayed);
    assert Look(0);
    assert d[..|d|] == d && d[|d|..] == [] && Remaining(s, d) + [] == Remaining(s, d);
    assert s'.procs == Tick(s).procs;
  }

  // ---- what a resumed process finds ----

  lemma WokenParent(s: State)
    requires Between(s) && s.procs[s.current].pc == AfterWait
    ensures s.procs[s.current].zombies != [] && s.procs[s.current].zombies[0] in s.procs
  {
    assert Look(0);
    assert Somewhere(s, s.current, s.current) && ListsOk(s, s.current);
    assert s.procs[s.current].zombies[0] in s.procs[s.current].zombies;
  }

  lemma WokenOwner(s: State)
    requires Between(s) && s.procs[s.current].pc.AfterAcquire?
    ensures var l := s.procs[s.current].pc.lock; Holds(s, s.current, l) && l in s.procs[s.current].owned && l != 0
  {
    var l := s.procs[s.current].pc.lock;
    assert Look(0);
    assert s.current !in Q(s, LockWait(l));
    assert OwnedOk(s, s.current) && OwnerOk(s, l);
  }

  lemma WokenReader(s: State)
    requires Between(s) && s.procs[s.current].pc.AfterPipeRead?
    ensures var id := s.procs[s.current].pc.pipe; id in s.pipes && s.pipes[id].Valid()
  {
    assert Look(0);
  }

  lemma WokenCaller(s: State)
    requires Between(s) && (s.procs[s.current].pc.AfterTtyWrite? || s.procs[s.current].pc.AfterCvarWait?)
    ensures CallsAgain(s)
  {
    assert Look(0);
  }
}
