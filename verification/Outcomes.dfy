/** What a kernel call means for the program that makes it and for everybody else: who has returned
    with what, who waits where, who runs next, and what is as it was. */
module Outcomes {
  import opened Pipe
  import opened KernelState
  import opened Placement
  import opened Holding
  import opened Family
  import opened KernelInvariant
  import opened KernelSteps
  import opened ExitSteps
  import opened CallSteps
  import opened DataSteps
  import opened TtySteps
  import opened KernelRuns
  import opened StepEffects
  import opened DelayRuns

  /** The caller is back in its program with the result. */
  ghost predicate Returned(s: State, s': State, rc: int) {
    s'.current == s.current && s.current in s'.procs && s'.procs[s.current].pc == User && s'.procs[s.current].rc == rc
  }

  /** The caller is off the CPU, and the process that was next in line has it. */
  ghost predicate GaveUp(s: State, s': State) {
    s.current in s'.procs && s'.procs[s.current].pc != User && s'.current != s.current
    && Line(s') == if Q(s, Ready) == [] then [IDLE] else Q(s, Ready)
  }

  /** The caller waits behind everybody else on the list, and will resume where that list says. */
  ghost predicate Queued(s: State, s': State, a: Place) {
    GaveUp(s, s') && WaitPlace(s'.procs[s.current].pc) == a && Q(s', a) == Q(s, a) + [s.current]
  }

  ghost predicate SameLists(s: State, s': State) {
    forall a :: Q(s', a) == Q(s, a)
  }

  /** No other process notices the call, except that the ready queue and list `a` may have moved. */
  ghost predicate Discreet(s: State, s': State, a: Place) {
    s'.procs.Keys == s.procs.Keys && (forall p | p in s.procs && p != s.current :: s'.procs[p] == s.procs[p])
    && forall b | b != Ready && b != a :: Q(s', b) == Q(s, b)
  }

  /** The family and the locks of the caller are as before. */
  ghost predicate SameHoldings(f: Proc, g: Proc) {
    g.alive && g.parent == f.parent && g.live == f.live && g.zombies == f.zombies && g.owned == f.owned
  }

  ghost predicate SelfSame(s: State, s': State) {
    s.current in s.procs && s.current in s'.procs && SameHoldings(s.procs[s.current], s'.procs[s.current])
  }

  lemma ReturnedOutcome(s: State, rc: int)
    requires Runs(s)
    ensures var s' := Return(s, rc);
      Returned(s, s', rc) && SameLists(s, s') && Discreet(s, s', Ready) && SelfSame(s, s')
      && SameData(s, s') && SameLocks(s, s')
  {
    assert Look(0);
  }

  lemma ParkedLists(s: State, a: Place, pc: Resume, s1: State)
    requires s.current in s.procs && a != Ready && s1 == Parked(s, a, pc)
    ensures Q(s1, a) == Q(s, a) + [s.current] && forall b | b != a :: Q(s1, b) == Q(s, b)
    ensures forall p | p in s.procs && p != s.current :: p in s1.procs && s1.procs[p] == s.procs[p]
  {
  }

  lemma BlockedOutcome(s: State, a: Place, pc: Resume)
    requires Runs(s) && s.current != IDLE && pc != User && a != Ready && WaitPlace(pc) == a
    ensures var s' := Block(s, a, pc);
      Queued(s, s', a) && Discreet(s, s', a) && SelfSame(s, s') && SameData(s, s') && SameLocks(s, s')
  {
    assert Look(0);
    var s1 := Parked(s, a, pc);
    ParkedLists(s, a, pc, s1);
    DispatchLine(s1);
    DispatchOnlyReady(s1);
    NotOnLists(s);
  }

  lemma NotOnLists(s: State)
    requires Runs(s)
    ensures forall a :: s.current !in Q(s, a)
  {
    assert Look(0);
    forall a ensures s.current !in Q(s, a) {
      assert s.current in Q(s, a) ==> Listed(s, s.current, a, s.current);
    }
  }

  // ---- delay ----

  ghost predicate DelayOutcome(s: State, s': State, n: int) {
    Between(s') && Discreet(s, s', Delayed) && SelfSame(s, s') && SameData(s, s') && SameLocks(s, s')
    && (if n > 0 then Queued(s, s', Delayed) && Sleeps(s', s.current, n)
        else Returned(s, s', if n < 0 then ERROR else SUCCESS) && SameLists(s, s'))
  }

  lemma SleepMeans(s: State, n: int, s1: State, s': State)
    requires Calling(s) && n > 0 && s1 == SetProc(s, s.current, s.procs[s.current].(ticks := n))
    requires s' == Block(s1, Delayed, AfterDelay) && Between(s')
    ensures DelayOutcome(s, s', n)
  {
    CallingFromUser(s);
    SelfInv(s, s.procs[s.current].(ticks := n));
    assert SameLists(s, s1);
    BlockedOutcome(s1, Delayed, AfterDelay);
    assert s'.procs[s.current] == s1.procs[s.current].(pc := AfterDelay);
  }

  lemma DelayMeans(s: State, n: int)
    requires Calling(s)
    ensures DelayOutcome(s, Delay(s, n), n)
  {
    DelayBetween(s, n);
    CallingFromUser(s);
    if n > 0 {
      SleepMeans(s, n, SetProc(s, s.current, s.procs[s.current].(ticks := n)), Delay(s, n));
    } else {
      ReturnedOutcome(s, if n < 0 then ERROR else SUCCESS);
    }
  }

  // ---- locks and condition variables ----

  /** An unknown id is refused; a lock that is free or the caller's own is the caller's afterwards; for
      any other lock the caller waits, and the lock stays with its holder. */
  ghost predicate AcquireOutcome(s: State, s': State, id: Id) {
    Between(s') && Discreet(s, s', LockWait(id)) && SameData(s, s') && s'.linked == s.linked
    && (forall l | l in s.locks && l != id :: l in s'.locks && s'.locks[l] == s.locks[l])
    && (if id !in s.linked || id !in s.locks then Returned(s, s', ERROR) && SameLists(s, s') && s'.locks == s.locks
        else if s.locks[id].acquired && s.locks[id].owner != s.current then Queued(s, s', LockWait(id)) && s'.locks == s.locks
        else Returned(s, s', SUCCESS) && SameLists(s, s') && Holds(s', s.current, id))
  }

  lemma TakeOutcome(s: State, id: Id)
    requires Runs(s) && id in s.locks && !s.locks[id].acquired
    ensures var me := s.procs[s.current];
      var s' := Return(SetProc(s, s.current, me.(owned := me.owned + [id])).(locks := s.locks[id := Lock(true, s.current)]), SUCCESS);
      Returned(s, s', SUCCESS) && SameLists(s, s') && Holds(s', s.current, id) && Discreet(s, s', Ready) && SameData(s, s')
      && s'.linked == s.linked && forall l | l in s.locks && l != id :: l in s'.locks && s'.locks[l] == s.locks[l]
  {
    assert Look(0);
  }

  lemma AcquireMeans(s: State, id: Id)
    requires CallsAgain(s)
    ensures AcquireOutcome(s, Acquire(s, id), id)
  {
    AcquireInv(s, id);
    if id !in s.linked || id !in s.locks {
      ReturnedOutcome(s, ERROR);
    } else if Holds(s, s.current, id) {
      ReturnedOutcome(s, SUCCESS);
    } else if !s.locks[id].acquired {
      TakeOutcome(s, id);
    } else {
      BlockedOutcome(s, LockWait(id), AfterAcquire(id));
    }
  }

  /** The longest waiter, if there is one, becomes ready last; the caller goes on. */
  ghost predicate SignalOutcome(s: State, s': State, id: Id) {
    var q := Q(s, CvarWait(id));
    Between(s') && Discreet(s, s', CvarWait(id)) && SelfSame(s, s') && SameData(s, s') && SameLocks(s, s')
    && (if id in s.linked && id in s.cvars then
          Returned(s, s', SUCCESS)
          && (q == [] ==> SameLists(s, s'))
          && (q != [] ==> Q(s', CvarWait(id)) == q[1..] && Q(s', Ready) == Q(s, Ready) + [q[0]])
        else Returned(s, s', ERROR) && SameLists(s, s'))
  }

  lemma WokenOutcome(s: State, id: Id)
    requires Runs(s) && Q(s, CvarWait(id)) != []
    ensures var q := Q(s, CvarWait(id)); var s' := Wake(s, CvarWait(id), q[0]);
      Q(s', CvarWait(id)) == q[1..] && Q(s', Ready) == Q(s, Ready) + [q[0]]
      && Discreet(s, s', CvarWait(id)) && SameData(s, s') && SameLocks(s, s') && Runs(s') && s'.current == s.current
      && s'.procs == s.procs
  {
    var q := Q(s, CvarWait(id));
    assert q[0] in Q(s, CvarWait(id));
    WakeInv(s, s.current, CvarWait(id), q[0]);
    WakeQueues(s, CvarWait(id), q[0]);
    assert Without(q, q[0]) == q[1..];
  }

  lemma SignalMeans(s: State, id: Id)
    requires Calling(s)
    ensures SignalOutcome(s, Signal(s, id), id)
  {
    SignalBetween(s, id);
    CallingFromUser(s);
    if id !in s.linked || id !in s.cvars {
      ReturnedOutcome(s, ERROR);
    } else if Q(s, CvarWait(id)) == [] {
      ReturnedOutcome(s, SUCCESS);
    } else {
      WokenOutcome(s, id);
      ReturnedOutcome(Wake(s, CvarWait(id), Q(s, CvarWait(id))[0]), SUCCESS);
    }
  }

  // ---- wait ----

  /** With a zombie: SUCCESS, the exit status of the one that exited first, which is gone, and the others
      in their order. Without children: ERROR. Otherwise the caller waits, on no list. */
  ghost predicate WaitOutcome(s: State, s': State)
    requires s.current in s.procs
  {
    var p, me := s.current, s.procs[s.current];
    Between(s') && SameData(s, s') && SameLocks(s, s')
    && (forall c | c in s.procs && c != p && (me.zombies == [] || c != me.zombies[0]) :: c in s'.procs && s'.procs[c] == s.procs[c])
    && p in s'.procs && s'.procs[p].live == me.live && s'.procs[p].owned == me.owned
    && (if me.zombies != [] then
          Returned(s, s', SUCCESS) && SameLists(s, s') && me.zombies[0] in s.procs && me.zombies[0] !in s'.procs
          && s'.procs[p].status == s.procs[me.zombies[0]].exitStatus && s'.procs[p].zombies == me.zombies[1..]
        else if me.live == [] then Returned(s, s', ERROR) && SameLists(s, s')
        else GaveUp(s, s') && s'.procs[p].waiting && (forall a :: p !in Q(s', a)) && forall a | a != Ready :: Q(s', a) == Q(s, a))
  }

  lemma CollectMeans(s: State)
    requires Between(s) && s.current != IDLE && s.procs[s.current].zombies != []
    ensures WaitOutcome(s, Collect(s))
  {
    CollectInv(s);
    assert Look(0);
    assert ListsOk(s, s.current) && s.procs[s.current].zombies[0] in s.procs[s.current].zombies;
    assert SameLists(s, Collect(s));
  }

  lemma WaitsMeans(s: State)
    requires Calling(s) && s.procs[s.current].zombies == [] && s.procs[s.current].live != []
    ensures WaitOutcome(s, Dispatch(Waits(s)))
  {
    CallingFromUser(s);
    WaitBetween(s);
    assert Wait(s) == Dispatch(Waits(s));
    NotOnLists(s);
    assert SameLists(s, Waits(s));
    DispatchLine(Waits(s));
    DispatchOnlyReady(Waits(s));
    DispatchFrom(Waits(s));
  }

  lemma DispatchFrom(s: State)
    ensures forall p | p in Q(Dispatch(s), Ready) :: p in Q(s, Ready)
    ensures Dispatch(s).current == IDLE || Dispatch(s).current in Q(s, Ready)
  {
  }

  lemma WaitMeans(s: State)
    requires Calling(s)
    ensures WaitOutcome(s, Wait(s))
  {
    if s.procs[s.current].zombies != [] {
      CollectMeans(s);
    } else if s.procs[s.current].live == [] {
      WaitBetween(s);
      CallingFromUser(s);
      ReturnedOutcome(s, ERROR);
    } else {
      WaitsMeans(s);
    }
  }

  // ---- terminals ----

  /** A buffered line is served at once, up to the length asked for, and what the kernel keeps of a longer
      one stays in front; without a line the caller waits with an empty buffer of that length. */
  ghost predicate ReadOutcome(s: State, s': State, t: int, len: int) {
    Between(s') && SelfSame(s, s') && SameLocks(s, s') && s'.pipes == s.pipes && s'.busy == s.busy
    && (forall r: nat | r != t :: Lines(s', r) == Lines(s, r))
    && (if t < 0 || t >= NUM_TERMINALS || len < 0 then
          Returned(s, s', ERROR) && SameLists(s, s') && Discreet(s, s', Ready) && s'.lines == s.lines
        else if Lines(s, t) != [] then
          var line := Lines(s, t)[0];
          SameLists(s, s') && Discreet(s, s', Ready) && s.current in s'.procs
          && s'.procs[s.current].data <= line && Returned(s, s', |s'.procs[s.current].data|)
          && (|s'.procs[s.current].data| == len <= |line| || s'.procs[s.current].data == line)
          && Lines(s', t) == (if len < |line| then [Leftover(line, len)] else []) + Lines(s, t)[1..]
        else
          Queued(s, s', TtyReceive(t)) && Discreet(s, s', TtyReceive(t)) && s'.lines == s.lines
          && s'.procs[s.current].rxLen == len && s'.procs[s.current].rx == [])
  }

  lemma LineMeans(s: State, t: nat, len: nat, s': State)
    requires Calling(s) && t < NUM_TERMINALS && Lines(s, t) != [] && s' == TtyRead(s, t, len)
    ensures ReadOutcome(s, s', t, len)
  {
    TtyReadBetween(s, t, len);
    assert SameLists(s, s');
  }

  lemma NoLineMeans(s: State, t: nat, len: nat, s': State)
    requires Calling(s) && t < NUM_TERMINALS && Lines(s, t) == [] && s' == TtyRead(s, t, len)
    ensures ReadOutcome(s, s', t, len)
  {
    TtyReadBetween(s, t, len);
    CallingFromUser(s);
    var f := s.procs[s.current].(rxBuffer := true, rxLen := len, rx := []);
    var s1 := SetProc(s, s.current, f);
    SelfInv(s, f);
    assert SameLists(s, s1);
    BlockedOutcome(s1, TtyReceive(t), AfterTtyRead(t));
    assert s'.procs[s.current] == f.(pc := AfterTtyRead(t));
  }

  lemma ReadMeans(s: State, t: int, len: int)
    requires Calling(s)
    ensures ReadOutcome(s, TtyRead(s, t, len), t, len)
  {
    if t < 0 || t >= NUM_TERMINALS || len < 0 {
      TtyReadBetween(s, t, len);
      CallingFromUser(s);
      ReturnedOutcome(s, ERROR);
    } else if Lines(s, t) != [] {
      LineMeans(s, t, len, TtyRead(s, t, len));
    } else {
      NoLineMeans(s, t, len, TtyRead(s, t, len));
    }
  }

  /** The caller waits behind the other writers with all its bytes to send; the terminal is given a
      chunk exactly when it was idle. */
  ghost predicate WriteOutcome(s: State, s': State, t: nat, bytes: seq<Byte>) {
    Between(s') && Queued(s, s', TtyTransmit(t)) && Discreet(s, s', TtyTransmit(t)) && SelfSame(s, s') && SameLocks(s, s')
    && s'.pipes == s.pipes && s'.lines == s.lines && s'.procs[s.current].tx == bytes
    && s'.busy == if t in s.busy then s.busy else s.busy[t := Chunk(bytes)]
  }

  lemma WriteMeans(s: State, t: nat, bytes: seq<Byte>, kill: bool, s': State)
    requires Calling(s) && t <= NUM_TERMINALS && s' == TtyWrite(s, t, bytes, kill)
    ensures WriteOutcome(s, s', t, bytes)
  {
    TtyWriteBetween(s, t, bytes, kill);
    TerminalWired(s, t);
    WritingIs(s, t, bytes, kill);
    WritesMeans(s, t, bytes, AfterTtyWrite(t, |bytes|, kill), Writing(s, t, bytes, AfterTtyWrite(t, |bytes|, kill)), s');
  }

  lemma WritesMeans(s: State, t: nat, bytes: seq<Byte>, pc: Resume, s1: State, s': State)
    requires Calling(s) && pc.AfterTtyWrite? && pc.tty == t && WiredAt(s, t)
    requires s1 == Writing(s, t, bytes, pc) && s' == Dispatch(s1) && Between(s')
    ensures WriteOutcome(s, s', t, bytes)
  {
    CallingFromUser(s);
    NotOnLists(s);
    WritingLists(s, t, bytes, pc, s1);
    DispatchLine(s1);
    DispatchOnlyReady(s1);
    DispatchFrom(s1);
  }

  lemma WritingLists(s: State, t: nat, bytes: seq<Byte>, pc: Resume, s1: State)
    requires s.current in s.procs && s1 == Writing(s, t, bytes, pc)
    ensures Q(s1, TtyTransmit(t)) == Q(s, TtyTransmit(t)) + [s.current]
    ensures forall b | b != TtyTransmit(t) :: Q(s1, b) == Q(s, b)
    ensures s1.procs == s.procs[s.current := s.procs[s.current].(tx := bytes, pc := pc)]
  {
  }

  // ---- fork ----

  /** Nothing but the caller's return to its program. */
  ghost predicate Quiet(s: State, s': State) {
    SameLists(s, s') && Discreet(s, s', Ready) && SelfSame(s, s') && SameData(s, s') && SameLocks(s, s')
  }

  /** The child is new, has nothing but its parent, and runs; the parent has one more live child and is last in
      line, and nobody else changes. Both are inside the fork. Without memory nothing happens. */
  ghost predicate ForkOutcome(s: State, s': State, memory: bool) {
    var p, child := s.current, s.nextPid;
    Between(s') && SameData(s, s') && SameLocks(s, s') && s'.nextPid == child + 1
    && (if !memory then Returned(s, s', ERROR) && Quiet(s, s')
        else
          p in s.procs && p in s'.procs && child in s'.procs && child !in s.procs && s'.procs.Keys == s.procs.Keys + {child}
          && s'.current == child && s'.procs[child].alive && s'.procs[child].parent == Parent(p)
          && s'.procs[child].live == [] && s'.procs[child].zombies == [] && s'.procs[child].owned == []
          && s'.procs[p].live == s.procs[p].live + [child] && s'.procs[p].zombies == s.procs[p].zombies
          && s'.procs[p].owned == s.procs[p].owned && s'.procs[p].parent == s.procs[p].parent && s'.procs[p].alive
          && s'.procs[p].pc == s'.procs[child].pc == AfterFork(child)
          && (forall c | c in s.procs && c != p :: s'.procs[c] == s.procs[c])
          && Q(s', Ready) == Q(s, Ready) + [p] && forall a | a != Ready :: Q(s', a) == Q(s, a))
  }

  lemma ChildMeans(s: State, s': State)
    requires Alive(s, s.current) && s.nextPid !in s.procs && s' == Fork(s, true) && Between(s')
    ensures ForkOutcome(s, s', true)
  {
    assert forall a | a != Ready :: Q(s', a) == Q(s, a);
  }

  lemma NoChildMeans(s: State, s': State)
    requires Alive(s, s.current) && s' == Fork(s, false) && Between(s')
    ensures ForkOutcome(s, s', false)
  {
    assert SameLists(s, s');
  }

  lemma ForkMeans(s: State, memory: bool)
    requires Calling(s)
    ensures ForkOutcome(s, Fork(s, memory), memory)
  {
    ForkBetween(s, memory);
    assert s.nextPid !in s.procs && Alive(s, s.current) by {
      assert Look(0);
    }
    if memory {
      ChildMeans(s, Fork(s, memory));
    } else {
      NoChildMeans(s, Fork(s, memory));
    }
  }

  // ---- making and reclaiming resources ----

  /** The caller is given the id of a resource that did not exist, and that nobody holds or has written to. */
  ghost predicate InitOutcome(s: State, s': State, e: Event) {
    Between(s') && Returned(s, s', SUCCESS) && SameLists(s, s') && Discreet(s, s', Ready) && SelfSame(s, s')
    && s'.lines == s.lines && s'.busy == s.busy
    && var n := s'.procs[s.current].status;
      n > 0 && n !in s.locks && n !in s.cvars && n !in s.pipes && n !in s.linked && s'.linked == s.linked + {n}
      && (if e.ELockInit? then
            n in s'.locks && !s'.locks[n].acquired && s'.locks == s.locks[n := s'.locks[n]]
          else s'.locks == s.locks)
      && s'.cvars == (if e.ECvarInit? then s.cvars + {n} else s.cvars)
      && (if e.EPipeInit? then
            n in s'.pipes && s'.pipes[n].Valid() && s'.pipes[n].Unread() == [] && s'.pipes == s.pipes[n := s'.pipes[n]]
          else s'.pipes == s.pipes)
  }

  lemma FreshId(s: State)
    requires Between(s)
    ensures var n := s.nextId; n > 0 && n !in s.locks && n !in s.cvars && n !in s.pipes && n !in s.linked
  {
    assert Look(0);
  }

  lemma InitMeans(s: State, e: Event)
    requires Calling(s) && (e.ELockInit? || e.ECvarInit? || e.EPipeInit?) && Enabled(s, e)
    ensures InitOutcome(s, Step(s, e), e)
  {
    StepBetween(s, e);
    FreshId(s);
    match e
    case ELockInit => ReturnIdMeans(s, NewResource(s).(locks := s.locks[s.nextId := Lock(false, 0)]), LockInit(s));
    case ECvarInit => ReturnIdMeans(s, NewResource(s).(cvars := s.cvars + {s.nextId}), CvarInit(s));
    case EPipeInit => ReturnIdMeans(s, NewResource(s).(pipes := s.pipes[s.nextId := EMPTY_PIPE]), PipeInit(s));
  }

  lemma ReturnIdMeans(s: State, s1: State, s': State)
    requires s1.procs == s.procs && s1.queues == s.queues && s1.current == s.current && s.current in s.procs
    requires s.procs[s.current].alive && s' == ReturnId(s1, s.nextId)
    ensures Returned(s, s', SUCCESS) && s'.procs[s.current].status == s.nextId
    ensures SameLists(s, s') && Discreet(s, s', Ready) && SelfSame(s, s')
    ensures s' == s1.(procs := s'.procs)
  {
  }

  /** Somebody holds the resource or waits for it. */
  ghost predicate InUse(s: State, id: Id) {
    (id in s.locks && ((exists p :: Holds(s, p, id)) || Q(s, LockWait(id)) != []))
    || (id in s.cvars && Q(s, CvarWait(id)) != [])
    || (id in s.pipes && Q(s, PipeWait(id)) != [])
  }

  /** The resource is off the kernel's list whatever the result, which is SUCCESS exactly when it was on the
      list and not in use. */
  ghost predicate ReclaimOutcome(s: State, s': State, id: Id) {
    Between(s') && Returned(s, s', if id in s.linked && !InUse(s, id) then SUCCESS else ERROR)
    && SameLists(s, s') && Discreet(s, s', Ready) && SelfSame(s, s') && SameData(s, s')
    && s'.locks == s.locks && s'.cvars == s.cvars && s'.linked == s.linked - {id}
  }

  lemma ReclaimMeans(s: State, id: Id)
    requires Calling(s)
    ensures ReclaimOutcome(s, Reclaim(s, id), id)
  {
    ReclaimBetween(s, id);
    CallingFromUser(s);
    var s1 := s.(linked := s.linked - {id});
    LinkedInv(s, s.linked - {id});
    var rc := if id in s.linked && Idle(s, id) then SUCCESS else ERROR;
    ReturnedOutcome(s1, rc);
    assert Reclaim(s, id) == Return(s1, rc);
    if id in s.locks && s.locks[id].acquired {
      assert Holds(s, s.locks[id].owner, id);
    }
    assert forall a :: Q(s1, a) == Q(s, a);
  }

  /** All waiters become ready, in order, behind everybody who was ready. */
  ghost predicate BroadcastOutcome(s: State, s': State, id: Id) {
    Between(s') && Discreet(s, s', CvarWait(id)) && SelfSame(s, s') && SameData(s, s') && SameLocks(s, s')
    && (if id in s.linked && id in s.cvars then
          Returned(s, s', SUCCESS) && Q(s', CvarWait(id)) == [] && Q(s', Ready) == Q(s, Ready) + Q(s, CvarWait(id))
        else Returned(s, s', ERROR) && SameLists(s, s'))
  }

  lemma BroadcastMeans(s: State, id: Id)
    requires Calling(s)
    ensures BroadcastOutcome(s, Broadcast(s, id), id)
  {
    BroadcastBetween(s, id);
    CallingFromUser(s);
    if id !in s.linked || id !in s.cvars {
      ReturnedOutcome(s, ERROR);
    } else if Q(s, CvarWait(id)) == [] {
      ReturnedOutcome(s, SUCCESS);
      assert Q(s, Ready) + [] == Q(s, Ready);
    } else {
      BroadcastsInv(s, id);
      ReturnedOutcome(Broadcasts(s, id), SUCCESS);
    }
  }

  // ---- pipes ----

  /** No other pipe, no lock and no terminal is concerned. */
  ghost predicate OnlyPipeData(s: State, s': State, id: Id) {
    SameLocks(s, s') && s'.lines == s.lines && s'.busy == s.busy && s'.pipes.Keys == s.pipes.Keys
    && forall b | b in s.pipes && b != id :: s'.pipes[b] == s.pipes[b]
  }

  /** With enough bytes unread the caller gets the oldest ones and the others stay; otherwise it waits last in
      the pipe's list for that many bytes, and the pipe is as it was. */
  ghost predicate ReadsOrWaits(s: State, s': State, id: Id, len: nat)
    requires id in s.pipes && s.pipes[id].Valid()
  {
    var unread := s.pipes[id].Unread();
    Between(s') && Discreet(s, s', PipeWait(id)) && SelfSame(s, s') && OnlyPipeData(s, s', id)
    && s'.pipes[id].Valid()
    && (if |unread| >= len then
          Returned(s, s', len) && SameLists(s, s') && s'.procs[s.current].data == unread[..len]
          && s'.pipes[id].Unread() == unread[len..]
        else Queued(s, s', PipeWait(id)) && Wanted(s', s.current) == len && s'.pipes == s.pipes)
  }

  ghost predicate PipeReadOutcome(s: State, s': State, id: Id, len: int) {
    if len > 0 && id in s.linked && id in s.pipes then s.pipes[id].Valid() && ReadsOrWaits(s, s', id, len)
    else Between(s') && Returned(s, s', if len == 0 then SUCCESS else ERROR) && Quiet(s, s')
  }

  lemma TakesBytes(s: State, id: Id, len: nat, s': State)
    requires Calls(s) && id in s.pipes && s.pipes[id].Valid() && s.pipes[id].available >= len && s' == ReadLoop(s, id, len)
    ensures Returned(s, s', len) && SameLists(s, s') && s'.procs[s.current].data == s.pipes[id].Unread()[..len]
    ensures s'.pipes == s.pipes[id := ReadBuffer(s.pipes[id], len)]
    ensures Discreet(s, s', PipeWait(id)) && SelfSame(s, s') && SameLocks(s, s') && s'.lines == s.lines && s'.busy == s.busy
  {
    assert Look(0);
  }

  lemma ReadLoopMeans(s: State, id: Id, len: nat, s': State)
    requires Calls(s) && id in s.pipes && s.pipes[id].Valid() && s' == ReadLoop(s, id, len)
    ensures ReadsOrWaits(s, s', id, len)
  {
    ReadLoopInv(s, id, len);
    if s.pipes[id].available >= len {
      TakesBytes(s, id, len, s');
      ReadTakesOldest(s.pipes[id], len);
      assert s.pipes[id].Unread()[len..] == ReadBuffer(s.pipes[id], len).Unread();
    } else {
      BlockedOutcome(s, PipeWait(id), AfterPipeRead(id, len));
      BlockedAt(s, PipeWait(id), AfterPipeRead(id, len));
    }
  }

  lemma BlockedAt(s: State, a: Place, pc: Resume)
    requires s.current in s.procs
    ensures s.current in Block(s, a, pc).procs && Block(s, a, pc).procs[s.current].pc == pc
  {
  }

  lemma PipeReadMeans(s: State, id: Id, len: int)
    requires Calling(s)
    ensures PipeReadOutcome(s, PipeRead(s, id, len), id, len)
  {
    PipeReadBetween(s, id, len);
    CallingFromUser(s);
    PipesThere(s);
    if len > 0 && id in s.linked && id in s.pipes {
      ReadLoopMeans(s, id, len, PipeRead(s, id, len));
    } else {
      ReturnedOutcome(s, if len == 0 then SUCCESS else ERROR);
    }
  }

  lemma PipesThere(s: State)
    requires Between(s)
    ensures forall id | id in s.pipes :: s.pipes[id].Valid()
  {
    assert Look(0);
  }

  /** The bytes are behind the unread ones, and the caller goes on. */
  ghost predicate PipeWriteOutcome(s: State, s': State, id: Id, bytes: seq<Byte>) {
    if bytes == [] then Between(s') && Returned(s, s', SUCCESS) && Quiet(s, s')
    else if id !in s.linked || id !in s.pipes then Between(s') && Returned(s, s', ERROR) && Quiet(s, s')
    else
      Between(s') && Returned(s, s', |bytes|) && Discreet(s, s', PipeWait(id)) && SelfSame(s, s') && OnlyPipeData(s, s', id)
      && s.pipes[id].Valid() && s'.pipes[id].Valid() && s'.pipes[id].Unread() == s.pipes[id].Unread() + bytes
  }

  lemma WritesBytes(s: State, id: Id, bytes: seq<Byte>, s': State)
    requires Calling(s) && bytes != [] && id in s.linked && id in s.pipes && s.pipes[id].Valid() && s' == PipeWrite(s, id, bytes)
    ensures Returned(s, s', |bytes|) && s'.pipes == s.pipes[id := WriteBuffer(s.pipes[id], bytes)]
    ensures Discreet(s, s', PipeWait(id)) && SelfSame(s, s') && SameLocks(s, s') && s'.lines == s.lines && s'.busy == s.busy
  {
    assert Alive(s, s.current) by {
      assert Look(0);
    }
    var b := WriteBuffer(s.pipes[id], bytes);
    var s1 := Return(s.(pipes := s.pipes[id := b]), |bytes|);
    assert SameLists(s, s1);
    var found := FirstSatisfied(s, Q(s, PipeWait(id)), b.available);
    if found != [] {
      WakeQueues(s1, PipeWait(id), found[0]);
    }
  }

  lemma PipeWriteMeans(s: State, id: Id, bytes: seq<Byte>)
    requires Calling(s)
    ensures PipeWriteOutcome(s, PipeWrite(s, id, bytes), id, bytes)
  {
    PipeWriteBetween(s, id, bytes);
    CallingFromUser(s);
    PipesThere(s);
    if bytes == [] || id !in s.linked || id !in s.pipes {
      ReturnedOutcome(s, if bytes == [] then SUCCESS else ERROR);
    } else {
      WritesBytes(s, id, bytes, PipeWrite(s, id, bytes));
      WriteAppends(s.pipes[id], bytes);
    }
  }
}
