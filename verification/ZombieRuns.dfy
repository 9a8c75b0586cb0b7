/** Children that have exited: over any run each is collected at most once, in the order of the exits,
    with the status it exited with. */
module ZombieRuns {
  import opened Pipe
  import opened KernelState
  import opened Placement
  import opened Holding
  import opened Family
  import opened KernelInvariant
  import opened ExitSteps
  import opened CallSteps
  import opened KernelRuns
  import opened StepEffects
  import opened KinSteps
  import opened HandOvers
  import opened Outcomes
  import opened QueueRuns
  import opened PipeRuns
  import opened DelayRuns

  /** The running process is gone after the event: it is not init, and its exit terminates. */
  ghost predicate Exits(s: State, e: Event)
    requires Enabled(s, e)
  {
    Ends(s, e) && s.current != INIT && Step(s, e).mode != Hung
  }

  /** The running process is given a zombie, by a Wait that returns at once or has been waiting. */
  ghost predicate Collects(s: State, e: Event)
    requires Enabled(s, e)
  {
    (e.EWait? && s.procs[s.current].zombies != []) || (e.EResume? && s.procs[s.current].pc == AfterWait)
  }

  ghost function Zombies(s: State, p: Pid): seq<Pid> {
    if p in s.procs then s.procs[p].zombies else []
  }

  ghost function StatusOf(s: State, z: Pid): int {
    if z in s.procs then s.procs[z].exitStatus else 0
  }

  ghost predicate SameStatuses(s: State, s': State, p: Pid) {
    forall c | c in Zombies(s, p) && c in Zombies(s', p) :: StatusOf(s', c) == StatusOf(s, c)
  }

  /** What an event does to the zombies of a process: the exit of a child adds it at the back, with its
      status; its own wait returns the status of the first, which is gone; and every other event of any
      process leaves them alone. */
  ghost predicate ZombieQueue(s: State, e: Event, p: Pid)
    requires Enabled(s, e)
  {
    var s', z := Step(s, e), Zombies(s, p);
    SameStatuses(s, s', p)
    && if Exits(s, e) && s.procs[s.current].parent == Parent(p) then
         Zombies(s', p) == z + [s.current] && StatusOf(s', s.current) == Status(e)
       else if Collects(s, e) && p == s.current then
         z != [] && Zombies(s', p) == z[1..] && z[0] !in s'.procs
         && Returned(s, s', SUCCESS) && s'.procs[p].status == StatusOf(s, z[0])
       else Zombies(s', p) == z
  }

  // ---- exits ----

  /** What an exit does to another process `p` and to the zombies of `p`. */
  ghost predicate Outlived(s: State, s': State, p: Pid, status: int)
    requires Alive(s, p) && s.current in s.procs
  {
    var z := s.procs[p].zombies;
    s'.nextPid == s.nextPid && (forall c :: Alive(s', c) <==> Alive(s, c) && c != s.current) && p in s'.procs
    && (forall c | c in z :: c in s.procs && c in s'.procs && s'.procs[c].exitStatus == s.procs[c].exitStatus)
    && if s.procs[s.current].parent == Parent(p) then
         s'.procs[p].zombies == z + [s.current] && StatusOf(s', s.current) == status
       else s'.procs[p].zombies == z
  }

  lemma ZombiesOf(s: State, p: Pid)
    requires Related(s) && Alive(s, p)
    ensures forall c | c in s.procs[p].zombies :: c in s.procs && !s.procs[c].alive && s.procs[c].parent == Parent(p)
    ensures NoDup(s.procs[p].zombies)
  {
    assert ListsOk(s, p);
  }

  /** The zombies of `p` and the parent of the running process are as before. */
  ghost predicate Unmoved(s: State, s1: State, p: Pid)
    requires Alive(s, p) && s.current in s.procs
  {
    s1.nextPid == s.nextPid && s1.current == s.current && (forall c :: Alive(s1, c) <==> Alive(s, c))
    && s1.procs[p].zombies == s.procs[p].zombies
    && s.current in s1.procs && s1.procs[s.current].parent == s.procs[s.current].parent
    && forall c | c in s.procs[p].zombies :: c in s.procs && c in s1.procs && s1.procs[c].exitStatus == s.procs[c].exitStatus
  }

  lemma OrphanOutlived(s: State, s1: State, p: Pid)
    requires Related(s) && Alive(s, s.current) && Alive(s, p) && p != s.current && s1 == Orphan(s)
    ensures Unmoved(s, s1, p)
  {
    ZombiesOf(s, p);
    ZombiesOf(s, s.current);
  }

  lemma ThenOutlived(s: State, s1: State, s2: State, s': State, p: Pid, status: int)
    requires s.current in s.procs && Alive(s, p) && Unmoved(s, s1, p) && Outlived(s1, s2, p, status)
    requires s'.procs == s2.procs && s'.nextPid == s2.nextPid
    ensures Outlived(s, s', p, status)
  {
  }

  lemma BuryOutlived(s: State, s': State, p: Pid, status: int)
    requires Related(s) && Alive(s, s.current) && Alive(s, p) && p != s.current && s' == Bury(s, status)
    ensures Outlived(s, s', p, status)
  {
    ZombiesOf(s, p);
    BuryProcs(s, status);
  }

  lemma DepartOutlived(s: State, s': State, p: Pid, status: int)
    requires Runs(s) && s.current != IDLE && Alive(s, p) && p != s.current && s' == Depart(s, status)
    ensures Outlived(s, s', p, status)
  {
    var s1 := Orphan(s);
    RelatedThere(s);
    OrphanOutlived(s, s1, p);
    OrphanInv(s);
    RelatedThere(s1);
    BuryOutlived(s1, Bury(s1, status), p, status);
    DispatchKin(Bury(s1, status));
    ThenOutlived(s, s1, Bury(s1, status), s', p, status);
  }

  lemma RelatedThere(s: State)
    requires Inv(s, s.current)
    ensures Related(s)
  {
    assert Look(0);
  }

  lemma ExitOutlived(s: State, s': State, p: Pid, status: int)
    requires CallsAgain(s) && s.mode == Running && s.current != INIT && s' == Exit(s, status) && s'.mode != Hung
    requires Alive(s, p) && p != s.current
    ensures Outlived(s, s', p, status)
  {
    var s1 := ReleaseAll(s, s.procs[s.current].owned);
    ReleaseAllInv(s);
    ReleaseAllKin(s, s.procs[s.current].owned);
    ReleasedRuns(s, s1);
    DepartOutlived(s1, s', p, status);
    RelatedThere(s);
    ZombiesOf(s, p);
    assert Unmoved(s, s1, p);
    ThenOutlived(s, s1, s', s', p, status);
  }

  lemma ReleasedRuns(s: State, s1: State)
    requires CallsAgain(s) && s1 == ReleaseAll(s, s.procs[s.current].owned) && s1.mode != Hung
    ensures Runs(s1) && s1.current == s.current && s1.mode != Panic
  {
    ReleaseAllInv(s);
    assert Look(0);
  }

  lemma ExitQueue(s: State, e: Event, p: Pid)
    requires Between(s) && Enabled(s, e) && Exits(s, e) && Alive(s, p) && p != s.current
    ensures ZombieQueue(s, e, p)
  {
    ExitEvent(s, e);
    var s' := Step(s, e);
    ExitOutlived(s, s', p, Status(e));
    forall c | c in Zombies(s, p) && c in Zombies(s', p) ensures StatusOf(s', c) == StatusOf(s, c) {
      assert c in s.procs[p].zombies;
    }
  }

  lemma ExitDies(s: State, e: Event)
    requires Between(s) && Enabled(s, e) && Exits(s, e)
    ensures !Alive(Step(s, e), s.current) && Step(s, e).nextPid == s.nextPid
    ensures forall c :: Alive(Step(s, e), c) ==> Alive(s, c)
  {
    ExitEvent(s, e);
    assert Alive(s, IDLE) && s.current != IDLE by {
      assert Look(0);
    }
    ExitOutlived(s, Step(s, e), IDLE, Status(e));
  }

  lemma ExitKin(s: State, status: int)
    requires CallsAgain(s) && s.mode == Running && (s.current == INIT || Exit(s, status).mode == Hung)
    ensures SameKin(s, Exit(s, status))
  {
    if s.current != INIT {
      ReleaseAllInv(s);
      ReleaseAllKin(s, s.procs[s.current].owned);
      var s1 := ReleaseAll(s, s.procs[s.current].owned);
      if s1.mode != Hung {
        DepartInv(s1, status);
      }
    }
  }

  /** An exit that hangs, and the exit of init, end nothing. */
  lemma NoExitKin(s: State, e: Event)
    requires Between(s) && Enabled(s, e) && Ends(s, e) && !Exits(s, e)
    ensures SameKin(s, Step(s, e))
  {
    ExitEvent(s, e);
    ExitKin(s, Status(e));
  }

  /** A parent blocked in Wait is made ready by the exit of a child: last in line, behind everybody
      who was ready before. */
  lemma ExitWakes(s: State, e: Event, pp: Pid)
    requires Between(s) && Enabled(s, e) && Exits(s, e) && s.procs[s.current].parent == Parent(pp)
    requires pp in s.procs && s.procs[pp].waiting
    ensures var s' := Step(s, e);
      pp in s'.procs && !s'.procs[pp].waiting && Q(s, Ready) <= Line(s') && Line(s')[|Line(s')| - 1] == pp
  {
    ExitEvent(s, e);
    var s1 := ReleaseAll(s, s.procs[s.current].owned);
    ReleaseAllReady(s, s.procs[s.current].owned);
    ReleaseAllKin(s, s.procs[s.current].owned);
    ReleaseAllInv(s);
    ReleasedRuns(s, s1);
    DepartWakes(s1, Status(e), pp);
  }

  lemma DepartWakes(s: State, status: int, pp: Pid)
    requires Runs(s) && s.current != IDLE && s.procs[s.current].parent == Parent(pp) && pp in s.procs && s.procs[pp].waiting
    ensures var s' := Depart(s, status);
      pp in s'.procs && !s'.procs[pp].waiting && Line(s') == Q(s, Ready) + [pp]
  {
    var s1 := Orphan(s);
    var s2 := Bury(s1, status);
    RelatedThere(s);
    ParentStays(s, s1, pp);
    OrphanInv(s);
    RelatedThere(s1);
    BuryProcs(s1, status);
    BuryQueues(s1, status);
    DispatchLine(s2);
    DispatchKin(s2);
  }

  lemma ParentStays(s: State, s1: State, pp: Pid)
    requires Related(s) && Alive(s, s.current) && s1 == Orphan(s) && s.procs[s.current].parent == Parent(pp)
    ensures pp != s.current && pp in s.procs && pp in s1.procs && s1.procs[pp].waiting == s.procs[pp].waiting
    ensures Q(s1, Ready) == Q(s, Ready) && s1.current == s.current && s.current in s1.procs
    ensures s1.procs[s.current].parent == Parent(pp)
  {
    assert ParentOk(s, s.current) && ListsOk(s, s.current);
  }

  // ---- forks and waits ----

  lemma ForkQueue(s: State, memory: bool, p: Pid)
    requires Between(s) && Enabled(s, EFork(memory)) && Alive(s, p)
    ensures ZombieQueue(s, EFork(memory), p)
    ensures forall c :: Alive(Step(s, EFork(memory)), c) ==> Alive(s, c) || c == s.nextPid
    ensures Step(s, EFork(memory)).nextPid == s.nextPid + 1
  {
    assert s.nextPid !in s.procs by {
      assert Look(0);
    }
  }

  lemma CollectQueue(s: State, e: Event, p: Pid)
    requires Between(s) && Enabled(s, e) && Collects(s, e) && Alive(s, p)
    ensures ZombieQueue(s, e, p)
    ensures Step(s, e).nextPid == s.nextPid && forall c :: Alive(Step(s, e), c) ==> Alive(s, c)
  {
    assert Related(s) by {
      assert Look(0);
    }
    CollectedFirst(s, e);
    ZombiesOf(s, s.current);
    ZombiesOf(s, p);
  }

  lemma CollectedFirst(s: State, e: Event)
    requires Between(s) && Enabled(s, e) && Collects(s, e)
    ensures Step(s, e) == Collect(s) && s.procs[s.current].zombies != [] && s.procs[s.current].zombies[0] in s.procs
  {
    assert Look(0);
    assert Somewhere(s, s.current, s.current) && ListsOk(s, s.current);
    ZombiesOf(s, s.current);
    assert s.procs[s.current].zombies[0] in s.procs[s.current].zombies;
  }

  /** Wait returns SUCCESS only with the exit status of the caller's oldest zombie, which is then gone; the
      others keep their order. */
  lemma CollectsOldest(s: State, e: Event)
    requires Between(s) && Enabled(s, e) && (e.EWait? || (e.EResume? && s.procs[s.current].pc == AfterWait))
    requires Returned(s, Step(s, e), SUCCESS)
    ensures var s', p := Step(s, e), s.current; var z := s.procs[p].zombies;
      z != [] && z[0] in s.procs && z[0] !in s'.procs && !s.procs[z[0]].alive
      && s'.procs[p].zombies == z[1..] && s'.procs[p].status == s.procs[z[0]].exitStatus
  {
    if e.EWait? && s.procs[s.current].zombies == [] {
      WaitMeans(s);
    } else {
      CollectQueue(s, e, s.current);
      CollectedFirst(s, e);
      RelatedThere(s);
      ZombiesOf(s, s.current);
    }
  }

  // ---- all events ----

  lemma KinQueue(s: State, e: Event, p: Pid)
    requires Between(s) && Enabled(s, e) && !Exits(s, e) && !Collects(s, e) && Alive(s, p) && SameKin(s, Step(s, e))
    ensures ZombieQueue(s, e, p)
  {
    RelatedThere(s);
    ZombiesOf(s, p);
  }

  lemma ZombieQueues(s: State, e: Event, p: Pid)
    requires Between(s) && Enabled(s, e) && Alive(s, p) && Alive(Step(s, e), p)
    ensures ZombieQueue(s, e, p)
  {
    if Exits(s, e) {
      ExitDies(s, e);
      ExitQueue(s, e, p);
    } else if Collects(s, e) {
      CollectQueue(s, e, p);
    } else if e.EFork? {
      ForkQueue(s, e.memory, p);
    } else {
      OtherKin(s, e);
      KinQueue(s, e, p);
    }
  }

  lemma OtherKin(s: State, e: Event)
    requires Between(s) && Enabled(s, e) && !Exits(s, e) && !Collects(s, e) && !e.EFork?
    ensures SameKin(s, Step(s, e))
  {
    if Domestic(s, e) {
      NoExitKin(s, e);
    } else {
      StepKin(s, e);
    }
  }

  /** Ids of processes are never used again. */
  lemma NewNames(s: State, e: Event)
    requires Between(s) && Enabled(s, e)
    ensures s.nextPid <= Step(s, e).nextPid
    ensures forall c :: Alive(Step(s, e), c) ==> Alive(s, c) || c == s.nextPid < Step(s, e).nextPid
  {
    if Exits(s, e) {
      ExitDies(s, e);
    } else if Collects(s, e) {
      CollectQueue(s, e, s.current);
    } else if e.EFork? {
      ForkQueue(s, e.memory, s.current);
    } else {
      OtherKin(s, e);
    }
  }

  lemma {:induction false} StaysDead(s: State, es: seq<Event>, p: Pid)
    requires Between(s) && Possible(s, es) && p < s.nextPid && Alive(Run(s, es), p)
    ensures Alive(s, p)
    decreases |es|
  {
    if es != [] {
      NewNames(s, es[0]);
      StepBetween(s, es[0]);
      StaysDead(Step(s, es[0]), es[1..], p);
    }
  }

  // ---- runs ----

  /** The zombies of a process with their exit statuses, the first to exit first. */
  ghost function Ledger(s: State, p: Pid): (r: seq<(Pid, int)>)
    ensures |r| == |Zombies(s, p)| && forall i | 0 <= i < |r| :: r[i] == (Zombies(s, p)[i], StatusOf(s, Zombies(s, p)[i]))
  {
    var z := Zombies(s, p);
    seq(|z|, i requires 0 <= i < |z| => (z[i], StatusOf(s, z[i])))
  }

  /** The child of `p` that exits in a step, with the status it exits with. */
  ghost function Left(s: State, e: Event, p: Pid): seq<(Pid, int)>
    requires Enabled(s, e)
  {
    if Exits(s, e) && s.procs[s.current].parent == Parent(p) then [(s.current, Status(e))] else []
  }

  /** The child that a Wait of `p` takes in a step, with the status the program of `p` is given. */
  ghost function Taken(s: State, e: Event, p: Pid): seq<(Pid, int)>
    requires Enabled(s, e)
  {
    if Collects(s, e) && p == s.current && Returned(s, Step(s, e), SUCCESS) && Zombies(s, p) != [] then
      [(Zombies(s, p)[0], Step(s, e).procs[p].status)]
    else []
  }

  ghost function AllLeft(s: State, es: seq<Event>, p: Pid): seq<(Pid, int)>
    requires Possible(s, es)
    decreases |es|
  {
    if es == [] then [] else Left(s, es[0], p) + AllLeft(Step(s, es[0]), es[1..], p)
  }

  ghost function AllTaken(s: State, es: seq<Event>, p: Pid): seq<(Pid, int)>
    requires Possible(s, es)
    decreases |es|
  {
    if es == [] then [] else Taken(s, es[0], p) + AllTaken(Step(s, es[0]), es[1..], p)
  }

  lemma LedgerBack(s: State, s': State, p: Pid, c: Pid, status: int)
    requires SameStatuses(s, s', p) && Zombies(s', p) == Zombies(s, p) + [c] && StatusOf(s', c) == status
    ensures Ledger(s, p) + [(c, status)] == Ledger(s', p)
  {
    var z := Zombies(s, p);
    assert forall i | 0 <= i < |z| :: z[i] in z && Zombies(s', p)[i] == z[i] && z[i] in Zombies(s', p);
  }

  lemma LedgerFront(s: State, s': State, p: Pid)
    requires SameStatuses(s, s', p) && Zombies(s, p) != [] && Zombies(s', p) == Zombies(s, p)[1..]
    ensures Ledger(s, p) == [(Zombies(s, p)[0], StatusOf(s, Zombies(s, p)[0]))] + Ledger(s', p)
  {
    var z := Zombies(s, p);
    assert forall i | 0 <= i < |z| - 1 :: z[i + 1] in z && Zombies(s', p)[i] == z[i + 1] && z[i + 1] in Zombies(s', p);
  }

  lemma LedgerSame(s: State, s': State, p: Pid)
    requires SameStatuses(s, s', p) && Zombies(s', p) == Zombies(s, p)
    ensures Ledger(s, p) == Ledger(s', p)
  {
    assert forall i | 0 <= i < |Zombies(s, p)| :: Zombies(s, p)[i] in Zombies(s, p);
  }

  lemma StepSettles(s: State, e: Event, p: Pid)
    requires Between(s) && Enabled(s, e) && Alive(s, p) && Alive(Step(s, e), p)
    ensures Ledger(s, p) + Left(s, e, p) == Taken(s, e, p) + Ledger(Step(s, e), p)
  {
    ZombieQueues(s, e, p);
    if Exits(s, e) && s.procs[s.current].parent == Parent(p) {
      LedgerBack(s, Step(s, e), p, s.current, Status(e));
    } else if Collects(s, e) && p == s.current {
      LedgerFront(s, Step(s, e), p);
    } else {
      LedgerSame(s, Step(s, e), p);
    }
  }

  /** For any interleaving: the zombies at the start and then the children that exited are the children
      whose statuses the waits returned and then the zombies at the end, all in the order of the exits. */
  lemma {:induction false} ZombieStream(s: State, es: seq<Event>, p: Pid)
    requires Between(s) && Possible(s, es) && Alive(s, p) && Alive(Run(s, es), p)
    ensures Ledger(s, p) + AllLeft(s, es, p) == AllTaken(s, es, p) + Ledger(Run(s, es), p)
    decreases |es|
  {
    if es != [] {
      var s1 := Step(s, es[0]);
      StepBetween(s, es[0]);
      AliveOn(s, es, p);
      StepSettles(s, es[0], p);
      ZombieStream(s1, es[1..], p);
      Regroup(Ledger(s, p), Left(s, es[0], p), AllLeft(s1, es[1..], p), Taken(s, es[0], p), Ledger(s1, p),
              AllTaken(s1, es[1..], p), Ledger(Run(s, es), p));
    }
  }

  /** A process that is alive at the end of a run was alive after its first step. */
  lemma AliveOn(s: State, es: seq<Event>, p: Pid)
    requires Between(s) && Possible(s, es) && es != [] && Alive(s, p) && Alive(Run(s, es), p)
    ensures Alive(Step(s, es[0]), p)
  {
    NewNames(s, es[0]);
    StepBetween(s, es[0]);
    assert p < s.nextPid by {
      assert Look(0);
    }
    StaysDead(Step(s, es[0]), es[1..], p);
  }

  // ---- at most once ----

  ghost predicate Once(r: seq<(Pid, int)>) {
    forall i, j | 0 <= i < j < |r| :: r[i].0 != r[j].0
  }

  /** Who exits in a run is alive at its start or created in it. */
  lemma {:induction false} LeftOnce(s: State, es: seq<Event>, p: Pid)
    requires Between(s) && Possible(s, es)
    ensures Once(AllLeft(s, es, p)) && forall c | c in AllLeft(s, es, p) :: Alive(s, c.0) || c.0 >= s.nextPid
    decreases |es|
  {
    if es != [] {
      var s1 := Step(s, es[0]);
      StepBetween(s, es[0]);
      NewNames(s, es[0]);
      LeftOnce(s1, es[1..], p);
      if Exits(s, es[0]) {
        ExitDies(s, es[0]);
        assert s.current < s.nextPid by {
          assert Look(0);
        }
      }
    }
  }

  lemma LedgerOnce(s: State, es: seq<Event>, p: Pid)
    requires Between(s) && Possible(s, es) && Alive(s, p)
    ensures Once(Ledger(s, p) + AllLeft(s, es, p))
  {
    LeftOnce(s, es, p);
    assert Look(0);
    ZombiesOf(s, p);
    var a, b, z := Ledger(s, p), AllLeft(s, es, p), Zombies(s, p);
    NoDupIndex(z);
    forall i, j | 0 <= i < |a| && 0 <= j < |b| ensures a[i].0 != b[j].0 {
      assert z[i] in z && b[j] in b;
    }
  }

  lemma {:induction false} NoDupIndex(q: seq<nat>)
    requires NoDup(q)
    ensures forall i, j | 0 <= i < j < |q| :: q[i] != q[j]
  {
    if q != [] {
      NoDupIndex(q[1..]);
      forall i, j | 0 <= i < j < |q| ensures q[i] != q[j] {
        assert q[j] == q[1..][j - 1];
      }
    }
  }

  /** The statuses a process collects over a run are a first part of the exits of its children, in their
      order, and no child is collected twice. */
  lemma CollectedOnce(s: State, es: seq<Event>, p: Pid)
    requires Between(s) && Possible(s, es) && Alive(s, p) && Alive(Run(s, es), p)
    ensures AllTaken(s, es, p) <= Ledger(s, p) + AllLeft(s, es, p) && Once(AllTaken(s, es, p))
  {
    ZombieStream(s, es, p);
    LedgerOnce(s, es, p);
    var all, taken := Ledger(s, p) + AllLeft(s, es, p), AllTaken(s, es, p);
    assert forall i | 0 <= i < |taken| :: taken[i] == all[i];
  }
}
