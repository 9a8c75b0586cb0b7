/** Where the processes are: each live process other than idle is in exactly one place. */
module Placement {
  import opened Pipe
  import opened KernelState

  /** Stands for the running process between leaving one process and picking the next. */
  const NOBODY := -1

  ghost predicate NoDup(q: seq<nat>) {
    q == [] || (q[0] !in q[1..] && NoDup(q[1..]))
  }

  ghost predicate Alive(s: State, p: int) {
    p in s.procs && s.procs[p].alive
  }

  /** The list on which a process waits while it is suspended at `pc`. */
  function WaitPlace(pc: Resume): Place {
    match pc
    case AfterDelay => Delayed
    case AfterAcquire(lock) => LockWait(lock)
    case AfterCvarWait(cvar, _) => CvarWait(cvar)
    case AfterPipeRead(pipe, _) => PipeWait(pipe)
    case AfterTtyRead(tty) => TtyReceive(tty)
    case AfterTtyWrite(tty, _, _) => TtyTransmit(tty)
    case _ => Ready
  }

  /** A process on a list is live, off the CPU, on no second list, and suspended where that list says. */
  ghost predicate Listed(s: State, run: int, a: Place, p: Pid) {
    Alive(s, p) && p != IDLE && p != run && !s.procs[p].waiting && s.procs[p].pc != User
    && (a != Ready ==> WaitPlace(s.procs[p].pc) == a && p !in Q(s, Ready))
  }

  /** A process on no list runs, waits for a child, or is idle. */
  ghost predicate Somewhere(s: State, run: int, p: Pid) {
    Alive(s, p) ==>
      (s.procs[p].waiting ==> s.procs[p].pc == AfterWait && p != run && p != IDLE)
      && (p != run ==> s.procs[p].pc != User)
      && (p != run && p != IDLE ==>
        s.procs[p].waiting || p in Q(s, Ready) || p in Q(s, WaitPlace(s.procs[p].pc)))
  }

  ghost predicate Placed(s: State, run: int) {
    (forall a :: NoDup(Q(s, a)))
    && (forall a, p {:trigger p in Q(s, a)} | p in Q(s, a) :: Listed(s, run, a, p))
    && (forall p {:trigger Somewhere(s, run, p)} {:trigger s.procs[p]} | p in s.procs :: Somewhere(s, run, p))
    && Alive(s, IDLE) && (s.procs[IDLE].pc == User || s.procs[IDLE].pc == Preempted)
  }

  lemma {:induction false} NoDupAppend(q: seq<nat>, x: nat)
    requires NoDup(q) && x !in q
    ensures NoDup(q + [x])
  {
    if q != [] {
      NoDupAppend(q[1..], x);
      assert (q + [x])[1..] == q[1..] + [x];
    }
  }

  lemma {:induction false} NoDupWithout(q: seq<nat>, x: nat)
    requires NoDup(q)
    ensures NoDup(Without(q, x)) && x !in Without(q, x)
  {
    if q != [] && q[0] != x {
      NoDupWithout(q[1..], x);
      assert Without(q, x)[1..] == Without(q[1..], x);
    }
  }

  lemma {:induction false} NoDupConcat(a: seq<nat>, b: seq<nat>)
    requires NoDup(a) && NoDup(b) && forall x | x in a :: x !in b
    ensures NoDup(a + b)
  {
    if a == [] {
      assert a + b == b;
    } else {
      NoDupConcat(a[1..], b);
      assert (a + b)[1..] == a[1..] + b;
    }
  }

  // ---- what the small steps keep ----

  lemma IdlePlaced(s: State, s': State)
    requires Placed(s, NOBODY) && s' == s.(current := IDLE)
    ensures Placed(s', IDLE)
  {
    assert forall a :: Q(s', a) == Q(s, a);
    forall a, p | p in Q(s', a) ensures Listed(s', IDLE, a, p) {
      assert p in Q(s, a) && Listed(s, NOBODY, a, p);
    }
    forall p | p in s'.procs ensures Somewhere(s', IDLE, p) {
      assert Somewhere(s, NOBODY, p);
    }
  }

  lemma DequeuePlaced(s: State, q: seq<Pid>, s': State)
    requires Placed(s, NOBODY) && q == Q(s, Ready) != [] && s' == SetQ(s, Ready, q[1..]).(current := q[0])
    ensures Placed(s', q[0])
  {
    assert q[0] in Q(s, Ready) && Listed(s, NOBODY, Ready, q[0]);
    assert q == [q[0]] + q[1..];
    assert forall a | a != Ready :: Q(s', a) == Q(s, a);
    assert Q(s', Ready) == q[1..];
    forall a, p | p in Q(s', a) ensures Listed(s', q[0], a, p) {
      assert p in Q(s, a) && Listed(s, NOBODY, a, p);
    }
    forall p | p in s'.procs ensures Somewhere(s', q[0], p) {
      assert Somewhere(s, NOBODY, p);
    }
  }

  lemma DispatchPlaced(s: State)
    requires Placed(s, NOBODY)
    ensures Placed(Dispatch(s), Dispatch(s).current) && Alive(s, Dispatch(s).current)
    ensures s.procs[Dispatch(s).current].pc != User && !s.procs[Dispatch(s).current].waiting
  {
    var q := Q(s, Ready);
    if q == [] {
      assert Somewhere(s, NOBODY, IDLE);
      IdlePlaced(s, Dispatch(s));
    } else {
      assert q[0] in q && Listed(s, NOBODY, Ready, q[0]);
      DequeuePlaced(s, q, Dispatch(s));
    }
  }

  /** The running process joins a list. */
  lemma EnqueuePlaced(s: State, a: Place, p: Pid, f: Proc)
    requires Placed(s, p) && Alive(s, p) && p != IDLE
    requires f.alive && !f.waiting && f.pc != User && (a == Ready || WaitPlace(f.pc) == a)
    ensures Placed(Append(SetProc(s, p, f), a, p), NOBODY)
  {
    var s' := Append(SetProc(s, p, f), a, p);
    assert forall b :: p !in Q(s, b);
    NoDupAppend(Q(s, a), p);
    assert forall b | b != a :: Q(s', b) == Q(s, b);
    forall b, r | r in Q(s', b) ensures Listed(s', NOBODY, b, r) {
      if r != p {
        assert r in Q(s, b);
      }
    }
    forall r | r in s'.procs ensures Somewhere(s', NOBODY, r) {
      assert Somewhere(s, p, r);
    }
  }

  /** A process that leaves a waiting list for the ready queue is still in one place. */
  lemma WakePlaced(s: State, run: int, a: Place, p: Pid)
    requires Placed(s, run) && p in Q(s, a) && a != Ready
    ensures Placed(Wake(s, a, p), run)
  {
    var s' := Wake(s, a, p);
    assert Listed(s, run, a, p);
    NoDupWithout(Q(s, a), p);
    NoDupAppend(Q(s, Ready), p);
    assert forall b | b != a && b != Ready :: Q(s', b) == Q(s, b);
    forall b, r | r in Q(s', b) ensures Listed(s', run, b, r) {
      if r != p {
        assert r in Q(s, b);
      }
    }
    forall r | r in s'.procs ensures Somewhere(s', run, r) {
      assert Somewhere(s, run, r);
    }
  }

  /** Same lists, same flow of control. */
  ghost predicate SameFlow(s: State, s': State) {
    (forall a :: Q(s', a) == Q(s, a))
    && (forall p :: Alive(s', p) <==> Alive(s, p))
    && (forall p | Alive(s, p) :: s'.procs[p].pc == s.procs[p].pc && s'.procs[p].waiting == s.procs[p].waiting)
  }

  lemma SamePlaced(s: State, s': State, run: int)
    requires Placed(s, run) && SameFlow(s, s')
    ensures Placed(s', run)
  {
    forall a, p | p in Q(s', a) ensures Listed(s', run, a, p) {
      assert p in Q(s, a) && Listed(s, run, a, p);
    }
    forall p | p in s'.procs ensures Somewhere(s', run, p) {
      if Alive(s, p) {
        assert Somewhere(s, run, p);
      }
    }
  }

  /** The running process dies. */
  lemma LeavePlaced(s: State, s': State, run: Pid)
    requires Placed(s, run) && run != IDLE && s'.queues == s.queues
    requires forall p :: Alive(s', p) <==> Alive(s, p) && p != run
    requires forall p | Alive(s', p) && Alive(s, p) :: s'.procs[p].pc == s.procs[p].pc && s'.procs[p].waiting == s.procs[p].waiting
    ensures Placed(s', NOBODY)
  {
    assert forall a :: Q(s', a) == Q(s, a);
    forall a, p | p in Q(s', a) ensures Listed(s', NOBODY, a, p) {
      assert p in Q(s, a) && Listed(s, run, a, p);
    }
    forall p | p in s'.procs ensures Somewhere(s', NOBODY, p) {
      if Alive(s', p) {
        assert Somewhere(s, run, p);
      }
    }
  }

  /** A process blocked in Wait is made ready. */
  lemma UnwaitPlaced(s: State, s': State, p: Pid, f: Proc)
    requires Placed(s, NOBODY) && Alive(s, p) && s.procs[p].waiting
    requires f.alive && !f.waiting && f.pc == s.procs[p].pc && s' == Append(SetProc(s, p, f), Ready, p)
    ensures Placed(s', NOBODY)
  {
    assert Somewhere(s, NOBODY, p);
    assert forall b :: p !in Q(s, b);
    NoDupAppend(Q(s, Ready), p);
    assert forall b | b != Ready :: Q(s', b) == Q(s, b);
    forall b, r | r in Q(s', b) ensures Listed(s', NOBODY, b, r) {
      if r != p {
        assert r in Q(s, b);
      }
    }
    forall r | r in s'.procs ensures Somewhere(s', NOBODY, r) {
      assert Somewhere(s, NOBODY, r);
    }
  }

  /** The running process may change anything about itself but its life. */
  lemma RunnerPlaced(s: State, run: Pid, f: Proc)
    requires Placed(s, run) && Alive(s, run) && f.alive && !f.waiting
    requires run == IDLE ==> f.pc == User || f.pc == Preempted
    ensures Placed(SetProc(s, run, f), run)
  {
    var s' := SetProc(s, run, f);
    assert forall a :: Q(s', a) == Q(s, a);
    forall a, p | p in Q(s', a) ensures Listed(s', run, a, p) {
      assert p in Q(s, a) && Listed(s, run, a, p);
    }
    forall p | p in s'.procs ensures Somewhere(s', run, p) {
      assert Somewhere(s, run, p);
    }
  }

  /** Blocking on a list, then switching. */
  lemma BlockPlaced(s: State, a: Place, pc: Resume)
    requires Placed(s, s.current) && Alive(s, s.current) && s.current != IDLE
    requires pc != User && (a == Ready || WaitPlace(pc) == a)
    ensures Placed(Block(s, a, pc), Block(s, a, pc).current)
  {
    assert Somewhere(s, s.current, s.current);
    var f := s.procs[s.current].(pc := pc);
    EnqueuePlaced(s, a, s.current, f);
    DispatchPlaced(Append(SetProc(s, s.current, f), a, s.current));
  }
}
