/** Locks: the lock records, the lists of owned lock ids and the waiting lists agree. */
module Holding {
  import opened Pipe
  import opened KernelState
  import opened Placement

  /** A held lock is on its owner's list. */
  ghost predicate OwnerOk(s: State, l: Id) {
    l in s.locks && s.locks[l].acquired ==>
      Alive(s, s.locks[l].owner) && l in s.procs[s.locks[l].owner].owned
  }

  /** A process owns each lock on its list, once; and a process suspended in KernelAcquire either
      waits for the lock or has been given it. */
  ghost predicate OwnedOk(s: State, p: Pid) {
    Alive(s, p) ==>
      NoDup(s.procs[p].owned)
      && (forall l | l in s.procs[p].owned :: Holds(s, p, l))
      && (s.procs[p].pc.AfterAcquire? ==>
        p in Q(s, LockWait(s.procs[p].pc.lock)) || Holds(s, p, s.procs[p].pc.lock))
  }

  /** Only held locks have waiters, and the owner is not one of them. */
  ghost predicate WaitersOk(s: State, l: Id) {
    forall p | p in Q(s, LockWait(l)) :: l in s.locks && s.locks[l].acquired && s.locks[l].owner != p
  }

  ghost predicate Locked(s: State) {
    (forall l {:trigger OwnerOk(s, l)} {:trigger s.locks[l]} | l in s.locks :: OwnerOk(s, l))
    && (forall p {:trigger OwnedOk(s, p)} {:trigger s.procs[p]} | p in s.procs :: OwnedOk(s, p))
    && (forall l {:trigger WaitersOk(s, l)} {:trigger Q(s, LockWait(l))} :: WaitersOk(s, l))
  }

  /** Steps that leave locks and lock queues alone; processes may come, and go if they own nothing. */
  ghost predicate LockFrame(s: State, s': State) {
    s'.locks == s.locks && (forall l :: Q(s', LockWait(l)) == Q(s, LockWait(l)))
    && (forall p | Alive(s', p) ::
      if Alive(s, p) then
        s'.procs[p].owned == s.procs[p].owned && (s'.procs[p].pc == s.procs[p].pc || !s'.procs[p].pc.AfterAcquire?)
      else s'.procs[p].owned == [] && !s'.procs[p].pc.AfterAcquire?)
    && (forall p | Alive(s, p) && s.procs[p].owned != [] :: Alive(s', p))
  }

  lemma FrameLocked(s: State, s': State)
    requires Locked(s) && LockFrame(s, s')
    ensures Locked(s')
  {
    forall l | l in s'.locks ensures OwnerOk(s', l) {
      assert OwnerOk(s, l);
    }
    forall p | p in s'.procs ensures OwnedOk(s', p) {
      if Alive(s, p) {
        assert OwnedOk(s, p);
      }
    }
    forall l ensures WaitersOk(s', l) {
      assert WaitersOk(s, l);
    }
  }

  /** A free lock is taken. */
  lemma TakeLocked(s: State, l: Id, p: Pid, f: Proc)
    requires Locked(s) && Alive(s, p) && l in s.locks && !s.locks[l].acquired
    requires f.alive && f.owned == s.procs[p].owned + [l] && !f.pc.AfterAcquire?
    ensures Locked(SetProc(s, p, f).(locks := s.locks[l := Lock(true, p)]))
  {
    var s' := SetProc(s, p, f).(locks := s.locks[l := Lock(true, p)]);
    assert OwnedOk(s, p) && WaitersOk(s, l) && OwnerOk(s, l);
    assert l !in s.procs[p].owned;
    NoDupAppend(s.procs[p].owned, l);
    assert forall k :: Q(s', LockWait(k)) == Q(s, LockWait(k));
    forall k | k in s'.locks ensures OwnerOk(s', k) {
      assert OwnerOk(s, k);
    }
    forall r | r in s'.procs ensures OwnedOk(s', r) {
      assert OwnedOk(s, r);
    }
    forall k ensures WaitersOk(s', k) {
      assert WaitersOk(s, k);
    }
  }

  /** A process joins the waiting list of a lock someone else holds. */
  lemma WaitLocked(s: State, l: Id, p: Pid, f: Proc)
    requires Locked(s) && Alive(s, p) && l in s.locks && s.locks[l].acquired && s.locks[l].owner != p
    requires f.alive && f.owned == s.procs[p].owned && f.pc == AfterAcquire(l)
    ensures Locked(Append(SetProc(s, p, f), LockWait(l), p))
  {
    var s' := Append(SetProc(s, p, f), LockWait(l), p);
    assert Q(s', LockWait(l)) == Q(s, LockWait(l)) + [p];
    assert forall k | k != l :: Q(s', LockWait(k)) == Q(s, LockWait(k));
    forall k | k in s'.locks ensures OwnerOk(s', k) {
      assert OwnerOk(s, k);
    }
    forall r | r in s'.procs ensures OwnedOk(s', r) {
      assert OwnedOk(s, r);
    }
    forall k ensures WaitersOk(s', k) {
      assert WaitersOk(s, k);
    }
  }

  /** The lock is free again. */
  lemma FreeLocked(s: State, l: Id, p: Pid, f: Proc)
    requires Locked(s) && Alive(s, p) && Holds(s, p, l) && Q(s, LockWait(l)) == []
    requires f == s.procs[p].(owned := Without(s.procs[p].owned, l)) && !f.pc.AfterAcquire?
    ensures Locked(SetProc(s, p, f).(locks := s.locks[l := s.locks[l].(acquired := false)]))
  {
    var s' := SetProc(s, p, f).(locks := s.locks[l := s.locks[l].(acquired := false)]);
    assert OwnedOk(s, p);
    NoDupWithout(s.procs[p].owned, l);
    assert forall k :: Q(s', LockWait(k)) == Q(s, LockWait(k));
    forall k | k in s'.locks ensures OwnerOk(s', k) {
      assert OwnerOk(s, k);
    }
    forall r | r in s'.procs ensures OwnedOk(s', r) {
      assert OwnedOk(s, r);
    }
    forall k ensures WaitersOk(s', k) {
      assert WaitersOk(s, k);
    }
  }

  /** The lock passes from `p` to its oldest waiter `w`. */
  ghost predicate HandsOver(s: State, l: Id, p: Pid, w: Pid, s': State) {
    Holds(s, p, l) && w != p && Alive(s, p) && Alive(s, w)
    && s'.locks == s.locks[l := Lock(true, w)]
    && s'.procs == s.procs[p := s.procs[p].(owned := Without(s.procs[p].owned, l))]
                          [w := s.procs[w].(owned := s.procs[w].owned + [l])]
    && Q(s, LockWait(l)) != [] && Q(s, LockWait(l))[0] == w && Q(s', LockWait(l)) == Q(s, LockWait(l))[1..]
    && forall k | k != l :: Q(s', LockWait(k)) == Q(s, LockWait(k))
  }

  lemma HandOverOwned(s: State, l: Id, p: Pid, w: Pid, s': State, r: Pid)
    requires Locked(s) && HandsOver(s, l, p, w, s') && !s.procs[p].pc.AfterAcquire?
    requires s.procs[w].pc == AfterAcquire(l) && r in s'.procs
    ensures OwnedOk(s', r)
  {
    assert OwnedOk(s, r) && OwnedOk(s, p) && WaitersOk(s, l);
    assert Q(s, LockWait(l)) == [w] + Q(s, LockWait(l))[1..];
    if r == p {
      NoDupWithout(s.procs[p].owned, l);
    } else if r == w {
      assert l !in s.procs[w].owned;
      NoDupAppend(s.procs[w].owned, l);
    }
  }

  lemma HandOverLocked(s: State, l: Id, p: Pid, w: Pid, s': State)
    requires Locked(s) && HandsOver(s, l, p, w, s') && !s.procs[p].pc.AfterAcquire?
    requires NoDup(Q(s, LockWait(l))) && forall k | w in Q(s, LockWait(k)) :: k == l
    requires s.procs[w].pc == AfterAcquire(l)
    ensures Locked(s')
  {
    assert OwnedOk(s, p) && WaitersOk(s, l);
    forall k | k in s'.locks ensures OwnerOk(s', k) {
      assert OwnerOk(s, k);
    }
    forall r | r in s'.procs ensures OwnedOk(s', r) {
      HandOverOwned(s, l, p, w, s', r);
    }
    assert Q(s, LockWait(l)) == [w] + Q(s, LockWait(l))[1..];
    forall k ensures WaitersOk(s', k) {
      assert WaitersOk(s, k);
    }
  }
}
