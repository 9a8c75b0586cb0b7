/** The kernel's invariant, and that switching, returning and blocking keep it. */
module KernelInvariant {
  import opened Pipe
  import opened KernelState
  import opened Placement
  import opened Holding
  import opened Family

  /** On a terminal one transmission is under way exactly when processes wait to transmit, and
      it is the first chunk of the first of them; readers wait only where no line is buffered. */
  ghost predicate WiredAt(s: State, t: nat) {
    var q := Q(s, TtyTransmit(t));
    (q != [] ==> t in s.busy && q[0] in s.procs && s.busy[t] == Chunk(s.procs[q[0]].tx))
    && (t in s.busy ==> q != [])
    && (Q(s, TtyReceive(t)) != [] ==> Lines(s, t) == [])
  }

  ghost predicate Wired(s: State) {
    forall t :: WiredAt(s, t)
  }

  /** Resources have distinct ids, which are not zero, pipe buffers never overrun, and a suspended
      process has what the rest of its call needs. */
  ghost predicate Resourced(s: State) {
    0 < s.nextId
    && (forall l | l in s.locks :: 0 < l < s.nextId && l !in s.cvars && l !in s.pipes)
    && (forall c | c in s.cvars :: 0 < c < s.nextId && c !in s.pipes)
    && (forall b | b in s.pipes :: 0 < b < s.nextId && s.pipes[b].Valid())
    && (forall r | r in s.linked :: r in s.locks || r in s.cvars || r in s.pipes)
    && (forall p | Alive(s, p) && s.procs[p].pc.AfterPipeRead? :: s.procs[p].pc.pipe in s.pipes)
    && (forall p | Alive(s, p) && s.procs[p].pc.AfterCvarWait? :: s.procs[p].pc.lock in s.locks)
    && (forall p | Alive(s, p) && s.procs[p].pc.AfterTtyRead? :: s.procs[p].rxBuffer)
  }

  /** Keeps the invariant folded: a proof that needs to look inside `Inv` mentions `Look(0)`. */
  ghost predicate Look(k: nat) {
    true
  }

  ghost predicate Whole(s: State, run: int) {
    s.mode != Panic && Placed(s, run) && Locked(s) && Related(s) && Wired(s) && Resourced(s)
  }

  ghost predicate Inv(s: State, run: int) {
    forall k: nat | Look(k) :: Whole(s, run)
  }

  /** The running process, on the CPU and not in Wait. */
  ghost predicate Runs(s: State) {
    Inv(s, s.current) && Alive(s, s.current) && s.procs[s.current].pc != AfterWait
  }

  // ---- steps that leave most of the state alone ----

  ghost predicate WireFrame(s: State, s': State) {
    s'.busy == s.busy && s'.lines == s.lines
    && (forall t :: Q(s', TtyTransmit(t)) == Q(s, TtyTransmit(t)))
    && (forall t :: Q(s', TtyReceive(t)) == Q(s, TtyReceive(t)))
    && (forall p | Alive(s, p) && s.procs[p].pc.AfterTtyWrite? && p != s.current ::
      p in s'.procs && s'.procs[p].tx == s.procs[p].tx)
  }

  lemma FrameWired(s: State, s': State)
    requires Placed(s, s.current) && Wired(s) && WireFrame(s, s')
    ensures Wired(s')
  {
    forall t ensures WiredAt(s', t) {
      assert WiredAt(s, t);
      var q := Q(s, TtyTransmit(t));
      if q != [] {
        assert q[0] in Q(s, TtyTransmit(t)) && Listed(s, s.current, TtyTransmit(t), q[0]);
      }
    }
  }

  ghost predicate ResourceFrame(s: State, s': State) {
    s'.locks.Keys == s.locks.Keys && s'.cvars == s.cvars && s'.pipes == s.pipes && s'.linked == s.linked
    && s'.nextId == s.nextId
    && (forall p | Alive(s', p) && s'.procs[p].pc.AfterPipeRead? ::
      s'.procs[p].pc.pipe in s.pipes || (Alive(s, p) && s.procs[p].pc == s'.procs[p].pc))
    && (forall p | Alive(s', p) && s'.procs[p].pc.AfterCvarWait? ::
      s'.procs[p].pc.lock in s.locks || (Alive(s, p) && s.procs[p].pc == s'.procs[p].pc))
    && forall p | Alive(s', p) && s'.procs[p].pc.AfterTtyRead? ::
      s'.procs[p].rxBuffer || (Alive(s, p) && s.procs[p].pc == s'.procs[p].pc && s.procs[p].rxBuffer == s'.procs[p].rxBuffer)
  }

  lemma FrameResourced(s: State, s': State)
    requires Resourced(s) && ResourceFrame(s, s')
    ensures Resourced(s')
  {
  }

  // Each group of the invariant is kept on its own; the lemmas about Inv only collect them.

  /** Only the ready queue and the running process differ. */
  ghost predicate OnlyReady(s: State, s': State) {
    s' == s.(queues := s'.queues, current := s'.current) && forall a | a != Ready :: Q(s', a) == Q(s, a)
  }

  lemma OnlyReadyLocked(s: State, s': State)
    requires Locked(s) && OnlyReady(s, s')
    ensures Locked(s')
  {
    FrameLocked(s, s');
  }

  lemma OnlyReadyRelated(s: State, s': State)
    requires Related(s) && OnlyReady(s, s')
    ensures Related(s')
  {
    FrameRelated(s, s');
  }

  lemma OnlyReadyWired(s: State, s': State)
    requires Wired(s) && OnlyReady(s, s')
    ensures Wired(s')
  {
    forall t ensures WiredAt(s', t) {
      assert WiredAt(s, t);
    }
  }

  lemma OnlyReadyInv(s: State, s': State, run: int)
    requires Inv(s, NOBODY) && OnlyReady(s, s') && Placed(s', run)
    ensures Inv(s', run)
  {
    assert Look(0);
    OnlyReadyLocked(s, s');
    OnlyReadyRelated(s, s');
    OnlyReadyWired(s, s');
    FrameResourced(s, s');
  }

  lemma DispatchOnlyReady(s: State)
    ensures OnlyReady(s, Dispatch(s))
  {
  }

  lemma DispatchInv(s: State)
    requires Inv(s, NOBODY)
    ensures Inv(Dispatch(s), Dispatch(s).current) && Alive(s, Dispatch(s).current)
  {
    assert Look(0);
    var s' := Dispatch(s);
    DispatchPlaced(s);
    DispatchOnlyReady(s);
    OnlyReadyInv(s, s', s'.current);
  }

  /** The new record of the running process differs only in what its own calls use. */
  ghost predicate SelfChange(me: Proc, f: Proc) {
    f.alive && f.parent == me.parent && f.live == me.live && f.zombies == me.zombies && f.owned == me.owned
    && f.waiting == me.waiting && f.pc != AfterWait && !f.pc.AfterPipeRead? && !f.pc.AfterAcquire? && !f.pc.AfterTtyRead?
    && !f.pc.AfterCvarWait?
  }

  lemma SelfLocked(s: State, f: Proc)
    requires Locked(s) && Alive(s, s.current) && SelfChange(s.procs[s.current], f)
    ensures Locked(SetProc(s, s.current, f))
  {
    assert forall a :: Q(SetProc(s, s.current, f), a) == Q(s, a);
    FrameLocked(s, SetProc(s, s.current, f));
  }

  lemma SelfRelated(s: State, f: Proc)
    requires Related(s) && Alive(s, s.current) && SelfChange(s.procs[s.current], f) && !s.procs[s.current].waiting
    ensures Related(SetProc(s, s.current, f))
  {
    FrameRelated(s, SetProc(s, s.current, f));
  }

  lemma SelfWired(s: State, f: Proc)
    requires Placed(s, s.current) && Wired(s) && Alive(s, s.current)
    ensures Wired(SetProc(s, s.current, f))
  {
    assert forall a :: Q(SetProc(s, s.current, f), a) == Q(s, a);
    FrameWired(s, SetProc(s, s.current, f));
  }

  lemma NotWaiting(s: State)
    requires Placed(s, s.current) && Alive(s, s.current)
    ensures !s.procs[s.current].waiting
  {
    assert Somewhere(s, s.current, s.current);
  }

  lemma SelfInv(s: State, f: Proc)
    requires Runs(s) && SelfChange(s.procs[s.current], f) && (s.current == IDLE ==> f.pc == User || f.pc == Preempted)
    ensures Inv(SetProc(s, s.current, f), s.current)
  {
    assert Look(0);
    NotWaiting(s);
    RunnerPlaced(s, s.current, f);
    SelfLocked(s, f);
    SelfRelated(s, f);
    SelfWired(s, f);
    FrameResourced(s, SetProc(s, s.current, f));
  }

  lemma ReturnInv(s: State, rc: int)
    requires Runs(s)
    ensures Inv(Return(s, rc), s.current) && Alive(Return(s, rc), s.current) && Return(s, rc).current == s.current
  {
    SelfInv(s, s.procs[s.current].(pc := User, rc := rc));
  }

  // ---- blocking ----

  /** The current process on list `a`, before the dispatch. */
  function Parked(s: State, a: Place, pc: Resume): State
    requires s.current in s.procs
  {
    Append(SetProc(s, s.current, s.procs[s.current].(pc := pc)), a, s.current)
  }

  lemma ParkedQueues(s: State, a: Place, pc: Resume)
    requires s.current in s.procs
    ensures forall b | b != a :: Q(Parked(s, a, pc), b) == Q(s, b)
    ensures Q(Parked(s, a, pc), a) == Q(s, a) + [s.current]
  {
  }

  lemma ParkedLocked(s: State, a: Place, pc: Resume)
    requires Locked(s) && Alive(s, s.current) && !pc.AfterAcquire? && !a.LockWait?
    ensures Locked(Parked(s, a, pc))
  {
    ParkedQueues(s, a, pc);
    FrameLocked(s, Parked(s, a, pc));
  }

  lemma ParkedRelated(s: State, a: Place, pc: Resume)
    requires Related(s) && Alive(s, s.current) && pc != AfterWait && !s.procs[s.current].waiting
    ensures Related(Parked(s, a, pc))
  {
    FrameRelated(s, Parked(s, a, pc));
  }

  lemma ParkedWired(s: State, a: Place, pc: Resume)
    requires Placed(s, s.current) && Wired(s) && Alive(s, s.current) && !a.TtyTransmit?
    requires a.TtyReceive? ==> Lines(s, a.tty) == []
    ensures Wired(Parked(s, a, pc))
  {
    ParkedQueues(s, a, pc);
    forall t ensures WiredAt(Parked(s, a, pc), t) {
      assert WiredAt(s, t);
      var q := Q(s, TtyTransmit(t));
      if q != [] {
        assert q[0] in Q(s, TtyTransmit(t)) && Listed(s, s.current, TtyTransmit(t), q[0]);
      }
    }
  }

  lemma ParkedPlaced(s: State, a: Place, pc: Resume)
    requires Placed(s, s.current) && Alive(s, s.current) && s.current != IDLE
    requires pc != User && (a == Ready || WaitPlace(pc) == a)
    ensures Placed(Parked(s, a, pc), NOBODY)
  {
    NotWaiting(s);
    EnqueuePlaced(s, a, s.current, s.procs[s.current].(pc := pc));
  }

  /** The running process blocks on a list whose owner keeps no other record of it. */
  lemma BlockInv(s: State, a: Place, pc: Resume)
    requires Runs(s) && s.current != IDLE && (a == Ready || WaitPlace(pc) == a)
    requires pc != User && pc != AfterWait && !pc.AfterAcquire? && !a.TtyTransmit? && !a.LockWait?
    requires pc.AfterPipeRead? ==> pc.pipe in s.pipes
    requires a.TtyReceive? ==> Lines(s, a.tty) == []
    requires (pc.AfterTtyRead? ==> s.procs[s.current].rxBuffer) && (pc.AfterCvarWait? ==> pc.lock in s.locks)
    ensures Inv(Block(s, a, pc), Block(s, a, pc).current)
  {
    assert Look(0);
    NotWaiting(s);
    ParkedPlaced(s, a, pc);
    ParkedLocked(s, a, pc);
    ParkedRelated(s, a, pc);
    ParkedWired(s, a, pc);
    FrameResourced(s, Parked(s, a, pc));
    DispatchInv(Parked(s, a, pc));
  }
}
