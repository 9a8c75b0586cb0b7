/** Runs from boot that end in the states the exact conditions of LockRuns and PipeRuns speak of. */
module FailingRuns {
  import opened Pipe
  import opened KernelState
  import opened Placement
  import opened KernelInvariant
  import opened KernelRuns
  import opened PipeRuns

  /** `s'` is reached from `s` by the event. */
  ghost predicate Leads(s: State, e: Event, s': State) {
    Enabled(s, e) && s' == Step(s, e)
  }

  ghost predicate ReachedBy(es: seq<Event>, s: State) {
    forall k: nat | Look(k) :: Possible(BOOT, es) && Run(BOOT, es) == s
  }

  lemma Onwards(es: seq<Event>, s: State, e: Event, s': State)
    requires ReachedBy(es, s) && Leads(s, e, s')
    ensures ReachedBy(es + [e], s')
  {
    assert Look(0);
    RunExtends(BOOT, es, e);
  }

  ghost predicate InUserMode(s: State) {
    s.mode == Running && s.current in s.procs && s.procs[s.current].pc == User && s.current != IDLE
  }

  lemma Writes(es: seq<Event>, s: State, id: Id, bytes: seq<Byte>)
    requires ReachedBy(es, s) && InUserMode(s)
    ensures ReachedBy(es + [EPipeWrite(id, bytes)], PipeWrite(s, id, bytes))
  {
    Onwards(es, s, EPipeWrite(id, bytes), PipeWrite(s, id, bytes));
  }

  lemma Ticks(es: seq<Event>, s: State)
    requires ReachedBy(es, s) && InUserMode(s)
    ensures ReachedBy(es + [EClock], Clock(s))
  {
    Onwards(es, s, EClock, Clock(s));
  }

  lemma Resumes(es: seq<Event>, s: State)
    requires ReachedBy(es, s) && s.mode == Running && s.current in s.procs && s.procs[s.current].pc != User
    ensures ReachedBy(es + [EResume], Continue(s))
  {
    Onwards(es, s, EResume, Continue(s));
  }

  /** Init is in user mode, and nobody else exists but idle. */
  const INIT_RUNS: State :=
    BOOT.(current := INIT, queues := map[Ready := []],
          procs := map[IDLE := NewProc(Preempted, NoParent), INIT := NewProc(User, NoParent)])

  const TO_INIT := [EClock, EResume]

  lemma FirstTick(s1: State)
    requires s1 == INIT_RUNS.(procs := map[IDLE := NewProc(Preempted, NoParent), INIT := NewProc(Preempted, NoParent)])
    ensures Leads(BOOT, EClock, s1)
  {
    assert Q(BOOT, Ready) == [INIT] && Q(BOOT, Delayed) == [] && Expired(BOOT, []) == [];
    assert Tick(BOOT).procs == BOOT.procs;
    assert Tick(BOOT) == BOOT;
    assert Clock(BOOT).procs == s1.procs;
  }

  lemma InitResumes(s1: State)
    requires s1 == INIT_RUNS.(procs := map[IDLE := NewProc(Preempted, NoParent), INIT := NewProc(Preempted, NoParent)])
    ensures Leads(s1, EResume, INIT_RUNS)
  {
    assert Step(s1, EResume).procs == INIT_RUNS.procs;
  }

  lemma ToInit()
    ensures ReachedBy(TO_INIT, INIT_RUNS)
  {
    var s1 := INIT_RUNS.(procs := map[IDLE := NewProc(Preempted, NoParent), INIT := NewProc(Preempted, NoParent)]);
    FirstTick(s1);
    InitResumes(s1);
    assert ReachedBy([], BOOT);
    Onwards([], BOOT, EClock, s1);
    Onwards([] + [EClock], s1, EResume, INIT_RUNS);
    assert [] + [EClock] + [EResume] == TO_INIT;
  }

  // ---- an exit that hangs ----

  const CHILD: Pid := 2
  const BUSY_RECLAIM := TO_INIT + [EFork(true)] + [EResume] + [ELockInit] + [EAcquire(1)] + [EReclaim(1)] + [EExit(0)]

  /** The child is in user mode with these locks. */
  ghost predicate ChildRuns(s: State, owned: seq<Id>, locks: map<Id, Lock>, linked: set<Id>) {
    s.mode == Running && s.current == CHILD && CHILD in s.procs && s.procs[CHILD].pc == User
    && s.procs[CHILD].owned == owned && s.locks == locks && s.linked == linked && s.cvars == {} && s.pipes == map[]
  }

  lemma ForkChild(s1: State)
    requires s1 == Fork(INIT_RUNS, true)
    ensures Leads(INIT_RUNS, EFork(true), s1) && Leads(s1, EResume, Step(s1, EResume))
    ensures ChildRuns(Step(s1, EResume), [], map[], {}) && Step(s1, EResume).nextId == 1
  {
  }

  lemma ChildMakesLock(s: State, s': State)
    requires ChildRuns(s, [], map[], {}) && s.nextId == 1 && s' == LockInit(s)
    ensures Leads(s, ELockInit, s') && ChildRuns(s', [], map[1 := Lock(false, 0)], {1})
  {
  }

  lemma ChildTakesLock(s: State, s': State)
    requires ChildRuns(s, [], map[1 := Lock(false, 0)], {1}) && s' == Acquire(s, 1)
    ensures Leads(s, EAcquire(1), s') && ChildRuns(s', [1], map[1 := Lock(true, CHILD)], {1})
  {
  }

  lemma ChildReclaims(s: State, s': State)
    requires ChildRuns(s, [1], map[1 := Lock(true, CHILD)], {1}) && s' == Reclaim(s, 1)
    ensures Leads(s, EReclaim(1), s') && ChildRuns(s', [1], map[1 := Lock(true, CHILD)], {}) && s'.procs[CHILD].rc == ERROR
  {
  }

  lemma ChildHangs(s: State, s': State)
    requires ChildRuns(s, [1], map[1 := Lock(true, CHILD)], {}) && s' == Exit(s, 0)
    ensures Leads(s, EExit(0), s') && s'.mode == Hung
  {
    assert ReleaseAll(s, [1]).mode == Hung;
  }

  /** A child of init makes a lock, takes it, reclaims it while it holds it, which fails, and exits: the exit
      hangs. */
  lemma BusyReclaimRun()
    ensures Possible(BOOT, BUSY_RECLAIM) && Run(BOOT, BUSY_RECLAIM).mode == Hung
  {
    assert Look(0);
    var s1 := Fork(INIT_RUNS, true);
    var s2 := Step(s1, EResume);
    var s3 := LockInit(s2);
    var s4 := Acquire(s3, 1);
    var s5 := Reclaim(s4, 1);
    var s6 := Exit(s5, 0);
    ToInit();
    ForkChild(s1);
    ChildMakesLock(s2, s3);
    ChildTakesLock(s3, s4);
    ChildReclaims(s4, s5);
    ChildHangs(s5, s6);
    var es := TO_INIT + [EFork(true)];
    Onwards(TO_INIT, INIT_RUNS, EFork(true), s1);
    Onwards(es, s1, EResume, s2);
    Onwards(es + [EResume], s2, ELockInit, s3);
    Onwards(es + [EResume] + [ELockInit], s3, EAcquire(1), s4);
    Onwards(es + [EResume] + [ELockInit] + [EAcquire(1)], s4, EReclaim(1), s5);
    Onwards(es + [EResume] + [ELockInit] + [EAcquire(1)] + [EReclaim(1)], s5, EExit(0), s6);
  }

  // ---- a reader that is left asleep ----

  /** One pipe and nothing else; `pcs` says where each process is. */
  ghost predicate Piped(s: State, current: Pid, ready: seq<Pid>, waiting: seq<Pid>, b: PipeBuffer, pcs: map<Pid, Resume>) {
    s.mode == Running && s.current == current && Q(s, Ready) == ready && Q(s, PipeWait(1)) == waiting && Q(s, Delayed) == []
    && s.pipes == map[1 := b] && s.linked == {1} && b.Valid()
    && s.procs.Keys == pcs.Keys && (forall p | p in pcs :: s.procs[p].pc == pcs[p])
    && s.nextPid !in pcs && IDLE in pcs && INIT in pcs && current in pcs
  }

  lemma InitMakesPipe(s': State)
    requires s' == PipeInit(INIT_RUNS)
    ensures Leads(INIT_RUNS, EPipeInit, s') && s'.nextPid == 2
    ensures Piped(s', INIT, [], [], EMPTY_PIPE, map[IDLE := Preempted, INIT := User])
  {
    assert INIT_RUNS.procs[INIT].pc == User;
  }

  lemma ReaderForked(es: seq<Event>, s: State, waiting: seq<Pid>, pcs: map<Pid, Resume>) returns (s': State)
    requires ReachedBy(es, s) && Piped(s, INIT, [], waiting, EMPTY_PIPE, pcs) && pcs[INIT] == User
    requires s.nextPid > INIT && s.nextPid + 1 !in pcs
    ensures var child := s.nextPid;
      ReachedBy(es + [EFork(true)], s') && s'.nextPid == child + 1
      && Piped(s', child, [INIT], waiting, EMPTY_PIPE, pcs[INIT := AfterFork(child)][child := AfterFork(child)])
  {
    s' := Fork(s, true);
    assert Q(s', Ready) == [] + [INIT];
    Onwards(es, s, EFork(true), s');
  }

  lemma ReaderStarts(es: seq<Event>, s: State, waiting: seq<Pid>, pcs: map<Pid, Resume>, child: Pid) returns (s': State)
    requires ReachedBy(es, s)
    requires Piped(s, child, [INIT], waiting, EMPTY_PIPE, pcs) && pcs[child] == AfterFork(child) && child > INIT
    ensures ReachedBy(es + [EResume], s') && s'.nextPid == s.nextPid
    ensures Piped(s', child, [INIT], waiting, EMPTY_PIPE, pcs[child := User])
  {
    s' := Return(s, 0);
    assert Q(s', Ready) == Q(s, Ready) && Q(s', PipeWait(1)) == Q(s, PipeWait(1)) && Q(s', Delayed) == Q(s, Delayed);
    Onwards(es, s, EResume, s');
  }

  lemma ReaderSleeps(es: seq<Event>, s: State, waiting: seq<Pid>, pcs: map<Pid, Resume>, child: Pid) returns (s': State)
    requires ReachedBy(es, s)
    requires Piped(s, child, [INIT], waiting, EMPTY_PIPE, pcs) && pcs[child] == User && child > INIT
    ensures ReachedBy(es + [EPipeRead(1, 1)], s') && s'.nextPid == s.nextPid
    ensures Piped(s', INIT, [], waiting + [child], EMPTY_PIPE, pcs[child := AfterPipeRead(1, 1)])
  {
    s' := Block(s, PipeWait(1), AfterPipeRead(1, 1));
    assert Q(s', Ready) == [INIT][1..];
    Onwards(es, s, EPipeRead(1, 1), s');
  }

  lemma InitReturns(es: seq<Event>, s: State, waiting: seq<Pid>, pcs: map<Pid, Resume>, child: Pid) returns (s': State)
    requires ReachedBy(es, s)
    requires Piped(s, INIT, [], waiting, EMPTY_PIPE, pcs) && pcs[INIT] == AfterFork(child) && child > INIT
    ensures ReachedBy(es + [EResume], s') && s'.nextPid == s.nextPid
    ensures Piped(s', INIT, [], waiting, EMPTY_PIPE, pcs[INIT := User])
  {
    s' := Return(s, child);
    assert Q(s', Ready) == Q(s, Ready) && Q(s', PipeWait(1)) == Q(s, PipeWait(1)) && Q(s', Delayed) == Q(s, Delayed);
    Onwards(es, s, EResume, s');
  }

  const NEW_READER := [EFork(true)] + [EResume] + [EPipeRead(1, 1)] + [EResume]

  /** Init forks a child that waits for one byte. */
  lemma NewReader(es: seq<Event>, s: State, waiting: seq<Pid>, pcs: map<Pid, Resume>) returns (s': State)
    requires ReachedBy(es, s) && Piped(s, INIT, [], waiting, EMPTY_PIPE, pcs) && pcs[INIT] == User
    requires s.nextPid > INIT && s.nextPid + 1 !in pcs
    ensures var child := s.nextPid;
      ReachedBy(es + NEW_READER, s') && s'.nextPid == child + 1
      && Piped(s', INIT, [], waiting + [child], EMPTY_PIPE, pcs[child := AfterPipeRead(1, 1)])
  {
    var child: Pid := s.nextPid;
    var forked: map<Pid, Resume> := pcs[INIT := AfterFork(child)][child := AfterFork(child)];
    var asleep: map<Pid, Resume> := forked[child := User][child := AfterPipeRead(1, 1)];
    s' := ReaderForked(es, s, waiting, pcs);
    s' := ReaderStarts(es + [EFork(true)], s', waiting, forked, child);
    s' := ReaderSleeps(es + [EFork(true)] + [EResume], s', waiting, forked[child := User], child);
    s' := InitReturns(es + [EFork(true)] + [EResume] + [EPipeRead(1, 1)], s', waiting + [child], asleep, child);
    NewReaderEvents(es);
    NewReaderPlaces(pcs, child);
  }

  lemma NewReaderEvents(es: seq<Event>)
    ensures es + [EFork(true)] + [EResume] + [EPipeRead(1, 1)] + [EResume] == es + NEW_READER
  {
  }

  lemma NewReaderPlaces(pcs: map<Pid, Resume>, child: Pid)
    requires INIT in pcs && pcs[INIT] == User && child != INIT
    ensures var asleep: map<Pid, Resume> := pcs[INIT := AfterFork(child)][child := AfterFork(child)][child := User][child := AfterPipeRead(1, 1)];
      asleep[INIT := User] == pcs[child := AfterPipeRead(1, 1)]
  {
  }

  const TWO: seq<Byte> := [7, 8]

  lemma OneIsServed(s: State, pcs: map<Pid, Resume>)
    requires Piped(s, INIT, [], [2, 3], EMPTY_PIPE, pcs) && 2 in pcs && pcs[2] == AfterPipeRead(1, 1)
    ensures FirstSatisfied(s, Q(s, PipeWait(1)), 2) == [2] && Without([2, 3], 2) == [3]
  {
    assert Wanted(s, 2) == 1;
  }

  lemma InitWrites(es: seq<Event>, s: State, pcs: map<Pid, Resume>) returns (s': State)
    requires ReachedBy(es, s) && Piped(s, INIT, [], [2, 3], EMPTY_PIPE, pcs) && pcs[INIT] == User
    requires 2 in pcs && pcs[2] == AfterPipeRead(1, 1)
    ensures ReachedBy(es + [EPipeWrite(1, TWO)], s') && Piped(s', INIT, [2], [3], WriteBuffer(EMPTY_PIPE, TWO), pcs)
  {
    var b := WriteBuffer(EMPTY_PIPE, TWO);
    var s1 := Return(s.(pipes := s.pipes[1 := b]), 2);
    s' := Wake(s1, PipeWait(1), 2);
    OneIsServed(s, pcs);
    WriteWakes(s, s1, s', pcs);
    WriteIs(s, s1, s', pcs);
    Writes(es, s, 1, TWO);
  }

  lemma WriteIs(s: State, s1: State, s': State, pcs: map<Pid, Resume>)
    requires Piped(s, INIT, [], [2, 3], EMPTY_PIPE, pcs) && FirstSatisfied(s, Q(s, PipeWait(1)), 2) == [2]
    requires s1 == Return(s.(pipes := s.pipes[1 := WriteBuffer(EMPTY_PIPE, TWO)]), 2) && s' == Wake(s1, PipeWait(1), 2)
    ensures PipeWrite(s, 1, TWO) == s'
  {
    assert s.pipes[1] == EMPTY_PIPE && MakeRoom(EMPTY_PIPE, 2).Spots() == 2;
  }

  lemma WriteWakes(s: State, s1: State, s': State, pcs: map<Pid, Resume>)
    requires Piped(s, INIT, [], [2, 3], EMPTY_PIPE, pcs) && pcs[INIT] == User && Without([2, 3], 2) == [3]
    requires s1 == Return(s.(pipes := s.pipes[1 := WriteBuffer(EMPTY_PIPE, TWO)]), 2) && s' == Wake(s1, PipeWait(1), 2)
    ensures Piped(s', INIT, [2], [3], WriteBuffer(EMPTY_PIPE, TWO), pcs)
  {
    WriteAppends(EMPTY_PIPE, TWO);
    assert Q(s1, PipeWait(1)) == [2, 3] && Q(s1, Ready) == [] && Q(s1, Delayed) == [];
    assert Q(s', Ready) == [] + [2];
  }

  lemma InitPreempted(es: seq<Event>, s: State, b: PipeBuffer, pcs: map<Pid, Resume>) returns (s': State)
    requires ReachedBy(es, s) && Piped(s, INIT, [2], [3], b, pcs) && pcs[INIT] == User && 2 in pcs
    ensures ReachedBy(es + [EClock], s') && Piped(s', 2, [INIT], [3], b, pcs[INIT := Preempted])
  {
    s' := Clock(s);
    assert Expired(s, []) == [];
    assert Tick(s).procs == s.procs && Tick(s) == s;
    assert Q(s', Ready) == ([2] + [INIT])[1..];
    Ticks(es, s);
  }

  lemma ReaderReturns(es: seq<Event>, s: State, b: PipeBuffer, pcs: map<Pid, Resume>) returns (s': State)
    requires ReachedBy(es, s) && Piped(s, 2, [INIT], [3], b, pcs) && b.available == 2 && 2 in pcs && pcs[2] == AfterPipeRead(1, 1)
    ensures ReachedBy(es + [EResume], s') && Piped(s', 2, [INIT], [3], ReadBuffer(b, 1), pcs[2 := User]) && s'.procs[2].rc == 1
  {
    s' := ReadLoop(s, 1, 1);
    OneByteRead(s, s', b, pcs);
    Resumes(es, s);
  }

  lemma OneByteRead(s: State, s': State, b: PipeBuffer, pcs: map<Pid, Resume>)
    requires Piped(s, 2, [INIT], [3], b, pcs) && b.available == 2 && 2 in pcs && s' == ReadLoop(s, 1, 1)
    ensures Piped(s', 2, [INIT], [3], ReadBuffer(b, 1), pcs[2 := User]) && s'.procs[2].rc == 1
  {
    ReadTakesOldest(b, 1);
    assert s'.queues == s.queues;
  }

  const LEFT_ASLEEP :=
    TO_INIT + [EPipeInit] + NEW_READER + NEW_READER + [EPipeWrite(1, TWO)] + [EClock] + [EResume]

  /** A reader has returned, and another one sleeps although what it waits for is in the pipe. */
  ghost predicate LeftAsleep(s: State) {
    s.current == 2 && 2 in s.procs && s.procs[2].pc == User && s.procs[2].rc == 1
    && Q(s, PipeWait(1)) == [3] && 1 in s.pipes && Wanted(s, 3) == s.pipes[1].available == 1
  }

  /** Two children of init wait for one byte each, and init writes two bytes. The write wakes the first
      child, which reads its byte and returns; the second sleeps on although its byte is in the pipe. */
  lemma LeftAsleepRun()
    ensures Possible(BOOT, LEFT_ASLEEP) && LeftAsleep(Run(BOOT, LEFT_ASLEEP))
  {
    ToInit();
    var s0 := PipeInit(INIT_RUNS);
    InitMakesPipe(s0);
    Onwards(TO_INIT, INIT_RUNS, EPipeInit, s0);
    TwoReaders(TO_INIT + [EPipeInit], s0);
    assert TO_INIT + [EPipeInit] + NEW_READER + NEW_READER + [EPipeWrite(1, TWO)] + [EClock] + [EResume] == LEFT_ASLEEP;
  }

  lemma TwoReaders(es: seq<Event>, s: State)
    requires ReachedBy(es, s) && s.nextPid == 2 && Piped(s, INIT, [], [], EMPTY_PIPE, map[IDLE := Preempted, INIT := User])
    ensures var all := es + NEW_READER + NEW_READER + [EPipeWrite(1, TWO)] + [EClock] + [EResume];
      Possible(BOOT, all) && LeftAsleep(Run(BOOT, all))
  {
    var pcs: map<Pid, Resume> := map[IDLE := Preempted, INIT := User];
    var one: map<Pid, Resume> := pcs[2 := AfterPipeRead(1, 1)];
    var s1 := NewReader(es, s, [], pcs);
    assert [] + [2] == [2] && [2] + [3] == [2, 3];
    var s2 := NewReader(es + NEW_READER, s1, [2], one);
    AfterTwoReaders(es + NEW_READER + NEW_READER, s2, one[3 := AfterPipeRead(1, 1)]);
  }

  lemma AfterTwoReaders(es: seq<Event>, s: State, pcs: map<Pid, Resume>)
    requires ReachedBy(es, s) && Piped(s, INIT, [], [2, 3], EMPTY_PIPE, pcs) && pcs[INIT] == User
    requires 2 in pcs && 3 in pcs && pcs[2] == pcs[3] == AfterPipeRead(1, 1)
    ensures var all := es + [EPipeWrite(1, TWO)] + [EClock] + [EResume];
      Possible(BOOT, all) && LeftAsleep(Run(BOOT, all))
  {
    var b := WriteBuffer(EMPTY_PIPE, TWO);
    var s1 := InitWrites(es, s, pcs);
    var s2 := InitPreempted(es + [EPipeWrite(1, TWO)], s1, b, pcs);
    var s3 := ReaderReturns(es + [EPipeWrite(1, TWO)] + [EClock], s2, b, pcs[INIT := Preempted]);
    assert Look(0);
  }
}
