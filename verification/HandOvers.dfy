/** What becomes of the locks a process gives up, in Release, in CvarWait and when it exits; and who runs
    after an exit. */
module HandOvers {
  import opened Pipe
  import opened KernelState
  import opened Placement
  import opened Holding
  import opened Family
  import opened KernelInvariant
  import opened KernelSteps
  import opened ExitSteps
  import opened CallSteps
  import opened DataSteps
  import opened KernelRuns
  import opened StepEffects
  import opened KinSteps
  import opened DelayRuns
  import opened Outcomes

  /** The process that waits longest for a lock. */
  ghost function Heir(s: State, l: Id): seq<Pid> {
    if Q(s, LockWait(l)) == [] then [] else [Q(s, LockWait(l))[0]]
  }

  /** The lock is its heir's, who waits no more, or free if nobody waited. */
  ghost predicate PassedOn(s: State, s': State, l: Id) {
    var q := Q(s, LockWait(l));
    l in s'.locks
    && (if q == [] then !s'.locks[l].acquired && Q(s', LockWait(l)) == []
        else Holds(s', q[0], l) && Q(s', LockWait(l)) == q[1..])
  }

  ghost predicate SameLock(s: State, s': State, l: Id) {
    Q(s', LockWait(l)) == Q(s, LockWait(l)) && (l in s.locks ==> l in s'.locks && s'.locks[l] == s.locks[l])
  }

  // ---- one lock ----

  /** The running process gives up one lock and stays on the CPU. */
  ghost predicate GivesUp(s: State, s': State, l: Id) {
    PassedOn(s, s', l) && (forall k | k != l :: SameLock(s, s', k))
    && Q(s', Ready) == Q(s, Ready) + Heir(s, l) && (forall a | a != Ready && !a.LockWait? :: Q(s', a) == Q(s, a))
    && s'.current == s.current && s'.linked == s.linked && SameData(s, s') && s'.procs.Keys == s.procs.Keys
    && (forall p | p in s.procs && p != s.current ::
      s'.procs[p] == if p in Heir(s, l) then s.procs[p].(owned := s.procs[p].owned + [l]) else s.procs[p])
  }

  lemma FreeGivesUp(s: State, l: Id)
    requires s.current in s.procs && l in s.locks && Q(s, LockWait(l)) == []
    ensures GivesUp(s, FreeLock(s, l), l)
  {
    assert forall a :: Q(FreeLock(s, l), a) == Q(s, a);
  }

  lemma HandOverGivesUp(s: State, l: Id)
    requires s.current in s.procs && l in s.locks && Q(s, LockWait(l)) != [] && Q(s, LockWait(l))[0] in s.procs
    ensures GivesUp(s, HandOver(s, l), l)
  {
    assert forall a | a != Ready && a != LockWait(l) :: Q(HandOver(s, l), a) == Q(s, a);
  }

  lemma UnlockGivesUp(s: State, l: Id)
    requires Runs(s) && Holds(s, s.current, l) && !s.procs[s.current].pc.AfterAcquire?
    ensures GivesUp(s, Unlock(s, l), l) && Runs(Unlock(s, l)) && l !in Unlock(s, l).procs[s.current].owned
  {
    HeldOwned(s, l);
    UnlockInv(s, l);
    OwnedOnce(s, l);
    if Q(s, LockWait(l)) == [] {
      FreeGivesUp(s, l);
    } else {
      assert Q(s, LockWait(l))[0] in s.procs by {
        assert Look(0);
        Waiter(s, l);
      }
      HandOverGivesUp(s, l);
    }
  }

  lemma OwnedOnce(s: State, l: Id)
    requires Runs(s)
    ensures l !in Without(s.procs[s.current].owned, l)
  {
    assert Look(0);
    assert OwnedOk(s, s.current);
    NoDupWithout(s.procs[s.current].owned, l);
  }

  /** Only the holder can release a lock that is on the kernel's list. */
  ghost predicate MayRelease(s: State, l: Id) {
    l in s.linked && l in s.locks && s.locks[l].acquired && s.locks[l].owner == s.current
  }

  ghost predicate ReleaseOutcome(s: State, s': State, l: Id) {
    Between(s')
    && (if MayRelease(s, l) then
          Returned(s, s', SUCCESS) && GivesUp(s, s', l) && l !in s'.procs[s.current].owned
        else Returned(s, s', ERROR) && Quiet(s, s'))
  }

  lemma ThenReturns(s: State, s1: State, s': State, l: Id)
    requires GivesUp(s, s1, l) && Runs(s1) && l !in s1.procs[s.current].owned && s' == Return(s1, SUCCESS)
    ensures Returned(s, s', SUCCESS) && GivesUp(s, s', l) && l !in s'.procs[s.current].owned
  {
    ReturnedOutcome(s1, SUCCESS);
    forall k | k != l ensures SameLock(s, s', k) {
      assert SameLock(s, s1, k);
    }
  }

  lemma ReleaseMeans(s: State, l: Id)
    requires Calling(s)
    ensures ReleaseOutcome(s, Release(s, l), l)
  {
    ReleaseBetween(s, l);
    CallingFromUser(s);
    if MayRelease(s, l) {
      UnlockGivesUp(s, l);
      ThenReturns(s, Unlock(s, l), Release(s, l), l);
    } else {
      ReturnedOutcome(s, ERROR);
    }
  }

  /** The caller waits last for the condition variable, its lock is passed on, and the next in line runs. */
  ghost predicate CvarWaitOutcome(s: State, s': State, c: Id, l: Id) {
    Between(s')
    && (if c in s.linked && c in s.cvars && MayRelease(s, l) then
          PassedOn(s, s', l) && (forall k | k != l :: SameLock(s, s', k))
          && s.current in s'.procs && s'.procs[s.current].pc != User && WaitPlace(s'.procs[s.current].pc) == CvarWait(c)
          && l !in s'.procs[s.current].owned && Q(s', CvarWait(c)) == Q(s, CvarWait(c)) + [s.current]
          && (forall a | a != Ready && !a.LockWait? && a != CvarWait(c) :: Q(s', a) == Q(s, a))
          && Line(s') == (if Q(s, Ready) + Heir(s, l) == [] then [IDLE] else Q(s, Ready) + Heir(s, l))
          && s'.procs.Keys == s.procs.Keys && SameData(s, s')
          && (forall p | p in s.procs && p != s.current ::
            s'.procs[p] == if p in Heir(s, l) then s.procs[p].(owned := s.procs[p].owned + [l]) else s.procs[p])
        else Returned(s, s', ERROR) && Quiet(s, s'))
  }

  lemma WaitsForCvar(s: State, s1: State, s': State, c: Id, l: Id)
    requires GivesUp(s, s1, l) && Runs(s1) && s.current != IDLE && l !in s1.procs[s.current].owned && Between(s')
    requires c in s.linked && c in s.cvars && MayRelease(s, l) && s' == Block(s1, CvarWait(c), AfterCvarWait(c, l))
    ensures CvarWaitOutcome(s, s', c, l)
  {
    BlockedOutcome(s1, CvarWait(c), AfterCvarWait(c, l));
    forall k | k != l ensures SameLock(s, s', k) {
      assert SameLock(s, s1, k) && Q(s', LockWait(k)) == Q(s1, LockWait(k));
    }
  }

  lemma CvarWaitMeans(s: State, c: Id, l: Id)
    requires Calling(s)
    ensures CvarWaitOutcome(s, WaitOnCvar(s, c, l), c, l)
  {
    WaitOnCvarBetween(s, c, l);
    CallingFromUser(s);
    if c in s.linked && c in s.cvars && MayRelease(s, l) {
      UnlockGivesUp(s, l);
      assert Unlock(s, l).mode != Panic by {
        assert Look(0);
      }
      WaitsForCvar(s, Unlock(s, l), WaitOnCvar(s, c, l), c, l);
    } else {
      ReturnedOutcome(s, ERROR);
    }
  }

  // ---- an exit ----

  /** Who gets the locks, in the order in which the process got them. */
  ghost function Heirs(s: State, ids: seq<Id>): seq<Pid> {
    if ids == [] then [] else Heir(s, ids[0]) + Heirs(s, ids[1..])
  }

  lemma {:induction false} SameHeirs(s: State, s': State, ids: seq<Id>)
    requires forall l | l in ids :: Q(s', LockWait(l)) == Q(s, LockWait(l))
    ensures Heirs(s', ids) == Heirs(s, ids)
  {
    if ids != [] {
      SameHeirs(s, s', ids[1..]);
    }
  }

  /** All the locks are passed on, and their heirs are ready. */
  ghost predicate GivesUpAll(s: State, s': State, ids: seq<Id>) {
    (forall l | l in ids :: PassedOn(s, s', l)) && (forall l | l !in ids :: SameLock(s, s', l))
    && Q(s', Ready) == Q(s, Ready) + Heirs(s, ids) && (forall a | a != Ready && !a.LockWait? :: Q(s', a) == Q(s, a))
    && s'.current == s.current
  }

  lemma {:induction false} ReleaseAllGivesUp(s: State)
    requires Runs(s) && !s.procs[s.current].pc.AfterAcquire? && forall l | l in s.procs[s.current].owned :: l in s.linked
    ensures GivesUpAll(s, ReleaseAll(s, s.procs[s.current].owned), s.procs[s.current].owned)
    decreases |s.procs[s.current].owned|
  {
    var ids := s.procs[s.current].owned;
    if ids == [] {
      assert Q(s, Ready) + [] == Q(s, Ready);
    } else {
      OwnedHolds(s);
      var s1 := Unlock(s, ids[0]);
      FirstGivenUp(s, ids, s1);
      ReleaseAllGivesUp(s1);
      assert forall l | l in ids[1..] :: SameLock(s, s1, l);
      SameHeirs(s, s1, ids[1..]);
      GivesUpMore(s, s1, ReleaseAll(s1, ids[1..]), ids[0], ids[1..]);
    }
  }

  /** One turn of the release loop. */
  lemma FirstGivenUp(s: State, ids: seq<Id>, s1: State)
    requires Runs(s) && !s.procs[s.current].pc.AfterAcquire? && ids == s.procs[s.current].owned != [] && ids[0] in s.linked
    requires ids[0] in s.locks && s1 == Unlock(s, ids[0])
    ensures GivesUp(s, s1, ids[0]) && Runs(s1) && s1.procs[s1.current] == s.procs[s.current].(owned := ids[1..])
    ensures ids == [ids[0]] + ids[1..] && ids[0] !in ids[1..] && ReleaseAll(s, ids) == ReleaseAll(s1, ids[1..])
  {
    OwnedHolds(s);
    UnlockGivesUp(s, ids[0]);
    UnlockInv(s, ids[0]);
    assert Without(ids, ids[0]) == ids[1..];
    assert s1.mode != Panic by {
      assert Look(0);
    }
  }

  lemma OwnedHolds(s: State)
    requires Runs(s) && s.procs[s.current].owned != []
    ensures var ids := s.procs[s.current].owned; Holds(s, s.current, ids[0]) && NoDup(ids)
  {
    assert Look(0);
    assert OwnedOk(s, s.current) && s.procs[s.current].owned[0] in s.procs[s.current].owned;
  }

  lemma GivesUpMore(s: State, s1: State, s2: State, l: Id, rest: seq<Id>)
    requires GivesUp(s, s1, l) && GivesUpAll(s1, s2, rest) && l !in rest && Heirs(s1, rest) == Heirs(s, rest)
    ensures GivesUpAll(s, s2, [l] + rest)
  {
    var ids := [l] + rest;
    assert ids[0] == l && ids[1..] == rest;
    forall k | k in ids ensures PassedOn(s, s2, k) {
      LockAfterBoth(s, s1, s2, l, rest, k);
    }
    forall k | k !in ids ensures SameLock(s, s2, k) {
      LockAfterBoth(s, s1, s2, l, rest, k);
    }
    assert Q(s, Ready) + Heir(s, l) + Heirs(s, rest) == Q(s, Ready) + Heirs(s, ids);
  }

  lemma LockAfterBoth(s: State, s1: State, s2: State, l: Id, rest: seq<Id>, k: Id)
    requires GivesUp(s, s1, l) && GivesUpAll(s1, s2, rest) && l !in rest
    ensures if k == l || k in rest then PassedOn(s, s2, k) else SameLock(s, s2, k)
  {
    if k == l {
      assert SameLock(s1, s2, l);
    } else if k in rest {
      assert SameLock(s, s1, k) && PassedOn(s1, s2, k);
    } else {
      assert SameLock(s, s1, k) && SameLock(s1, s2, k);
    }
  }

  /** The parent of the running process, if it is blocked in Wait. */
  ghost function WaitingParent(s: State): seq<Pid> {
    if s.current in s.procs && s.procs[s.current].parent.Parent? && s.procs[s.current].parent.pid in s.procs
      && s.procs[s.procs[s.current].parent.pid].waiting
    then [s.procs[s.current].parent.pid] else []
  }

  /** Every lock the process owned is passed on, no other lock changes, and the CPU goes down the line of those
      who were ready, the new owners, and the parent if it was waiting. */
  ghost predicate ExitOutcome(s: State, s': State)
    requires s.current in s.procs
  {
    var ids := s.procs[s.current].owned;
    var all := Q(s, Ready) + Heirs(s, ids) + WaitingParent(s);
    (forall l | l in ids :: PassedOn(s, s', l)) && (forall l | l !in ids :: SameLock(s, s', l))
    && Line(s') == (if all == [] then [IDLE] else all)
    && (forall a | a != Ready && !a.LockWait? :: Q(s', a) == Q(s, a))
  }

  lemma DepartLine(s: State, status: int)
    requires Runs(s) && s.current != IDLE
    ensures var s', all := Depart(s, status), Q(s, Ready) + WaitingParent(s);
      Line(s') == if all == [] then [IDLE] else all
  {
    var s1 := Orphan(s);
    OrphanInv(s);
    assert Related(s) && Related(s1) by {
      assert Look(0);
    }
    OrphanKeepsParent(s, s1);
    BuryQueues(s1, status);
    DispatchLine(Bury(s1, status));
    assert Q(s, Ready) + [] == Q(s, Ready);
  }

  lemma OrphanKeepsParent(s: State, s1: State)
    requires Related(s) && Alive(s, s.current) && s1 == Orphan(s)
    ensures Q(s1, Ready) == Q(s, Ready) && s1.current == s.current && s.current in s1.procs
    ensures s1.procs[s.current].parent == s.procs[s.current].parent && WaitingParent(s1) == WaitingParent(s)
    ensures s.procs[s.current].parent.Parent? ==> s.procs[s.current].parent.pid in s1.procs
  {
    assert ParentOk(s, s.current) && ListsOk(s, s.current);
  }

  lemma SameWaitingParent(s: State, s1: State)
    requires SameKin(s, s1) && s1.current == s.current && s.current in s.procs
    requires forall p | p in s.procs :: s1.procs[p].waiting == s.procs[p].waiting
    ensures WaitingParent(s1) == WaitingParent(s)
  {
  }

  /** Processes become ready behind those that are ready, and nobody leaves Wait. */
  ghost predicate Readies(s: State, s1: State) {
    Q(s, Ready) <= Q(s1, Ready) && s1.procs.Keys == s.procs.Keys && s1.current == s.current
    && forall p | p in s.procs :: s1.procs[p].waiting == s.procs[p].waiting
  }

  lemma {:induction false} ReleaseAllReady(s: State, ids: seq<Id>)
    requires s.current in s.procs
    ensures Readies(s, ReleaseAll(s, ids))
    decreases |ids|
  {
    if ids != [] && CanRelease(s, ids[0]) {
      UnlockReady(s, ids[0]);
      ReleaseAllReady(Unlock(s, ids[0]), ids[1..]);
      ReadiesTrans(s, Unlock(s, ids[0]), ReleaseAll(Unlock(s, ids[0]), ids[1..]));
    }
  }

  lemma ReadiesTrans(s: State, s1: State, s2: State)
    requires Readies(s, s1) && Readies(s1, s2)
    ensures Readies(s, s2)
  {
  }

  lemma HandOverReady(s: State, id: Id)
    requires s.current in s.procs && Q(s, LockWait(id)) != [] && Q(s, LockWait(id))[0] in s.procs
    ensures Readies(s, HandOver(s, id))
  {
  }

  lemma UnlockReady(s: State, id: Id)
    requires s.current in s.procs && id in s.locks
    ensures Readies(s, Unlock(s, id))
  {
    if Q(s, LockWait(id)) != [] && Q(s, LockWait(id))[0] in s.procs {
      HandOverReady(s, id);
    }
  }

  lemma ExitMeans(s: State, status: int, s': State)
    requires CallsAgain(s) && s.mode == Running && s.current != INIT && s' == Exit(s, status) && s'.mode != Hung
    ensures ExitOutcome(s, s')
  {
    var ids := s.procs[s.current].owned;
    var s1 := ReleaseAll(s, ids);
    ExitInv(s, status);
    ReleaseAllInv(s);
    ReleaseAllGivesUp(s);
    ReleaseAllReady(s, ids);
    ReleaseAllKin(s, ids);
    SameWaitingParent(s, s1);
    LeavesThrough(s, s1, status);
    DepartLine(s1, status);
    DepartCalm(s1, status);
    ThenLeaves(s, s1, s', ids);
  }

  lemma LeavesThrough(s: State, s1: State, status: int)
    requires CallsAgain(s) && s.current != INIT && s1 == ReleaseAll(s, s.procs[s.current].owned) && s1.mode != Hung
    ensures Runs(s1) && s1.current == s.current && Exit(s, status) == Depart(s1, status)
  {
    ReleaseAllInv(s);
    assert Look(0);
  }

  lemma ThenLeaves(s: State, s1: State, s': State, ids: seq<Id>)
    requires s.current in s.procs && ids == s.procs[s.current].owned && GivesUpAll(s, s1, ids)
    requires Calm(s1, s', Ready, false) && SameLocks(s1, s') && WaitingParent(s1) == WaitingParent(s)
    requires var all := Q(s1, Ready) + WaitingParent(s1); Line(s') == if all == [] then [IDLE] else all
    ensures ExitOutcome(s, s')
  {
    forall l | l in ids ensures PassedOn(s, s', l) {
      assert PassedOn(s, s1, l) && Q(s', LockWait(l)) == Q(s1, LockWait(l));
    }
    forall l | l !in ids ensures SameLock(s, s', l) {
      assert SameLock(s, s1, l) && Q(s', LockWait(l)) == Q(s1, LockWait(l));
    }
  }
}
