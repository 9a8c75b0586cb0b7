/** Who runs for the first time, and when: the copy of a kernel stack that a new process starts on is never
    taken from a process that has exited. */
module SwitchRuns {
  import opened Pipe
  import opened KernelState
  import opened Placement
  import opened KernelInvariant
  import opened KernelRuns
  import opened StepEffects
  import opened KinSteps
  import opened ZombieRuns

  /** The processes that had the CPU at some point of the run. */
  ghost function Ran(s: State, es: seq<Event>): (r: set<Pid>)
    requires Possible(s, es)
    ensures s.current in r
    decreases |es|
  {
    {s.current} + if es == [] then {} else Ran(Step(s, es[0]), es[1..])
  }

  /** Everybody who is alive has had the CPU; until the first clock interrupt init has not. */
  ghost predicate Known(s: State, seen: set<Pid>) {
    s.current in seen && IDLE in seen
    && ((forall p | Alive(s, p) :: p in seen) || (s.current == IDLE && forall p | Alive(s, p) :: p == IDLE || p == INIT))
  }

  lemma StepKnown(s: State, e: Event, seen: set<Pid>)
    requires Between(s) && Enabled(s, e) && Known(s, seen)
    ensures Known(Step(s, e), seen + {Step(s, e).current})
  {
    NewNames(s, e);
    StepBetween(s, e);
    if e.EFork? {
      ForkRuns(s, e.memory);
    } else {
      NoNewcomer(s, e);
    }
  }

  /** A forked child runs at once. */
  lemma ForkRuns(s: State, memory: bool)
    requires Between(s) && Enabled(s, EFork(memory))
    ensures var s' := Step(s, EFork(memory)); forall c :: Alive(s', c) ==> Alive(s, c) || c == s'.current
  {
  }

  lemma NoNewcomer(s: State, e: Event)
    requires Between(s) && Enabled(s, e) && !e.EFork?
    ensures forall c :: Alive(Step(s, e), c) ==> Alive(s, c)
  {
    if Exits(s, e) {
      ExitDies(s, e);
    } else if Collects(s, e) {
      CollectQueue(s, e, s.current);
    } else {
      OtherKin(s, e);
    }
  }

  lemma {:induction false} RunKnown(s: State, es: seq<Event>, seen: set<Pid>)
    requires Between(s) && Possible(s, es) && Known(s, seen)
    ensures Known(Run(s, es), seen + Ran(s, es))
    decreases |es|
  {
    if es == [] {
      assert seen + Ran(s, es) == seen;
    } else {
      var s1 := Step(s, es[0]);
      StepBetween(s, es[0]);
      StepKnown(s, es[0], seen);
      RunKnown(s1, es[1..], seen + {s1.current});
      assert seen + {s1.current} + Ran(s1, es[1..]) == seen + Ran(s, es);
    }
  }

  lemma BootKnown(es: seq<Event>)
    requires Possible(BOOT, es)
    ensures Between(Run(BOOT, es)) && Known(Run(BOOT, es), Ran(BOOT, es))
  {
    BootBetween();
    Reached(es);
    RunKnown(BOOT, es, {IDLE});
    assert {IDLE} + Ran(BOOT, es) == Ran(BOOT, es);
  }

  /** In any run a process gets the CPU for the first time when it is forked, or is init and idle gives
      the CPU up. */
  lemma FirstRuns(es: seq<Event>, e: Event)
    requires Possible(BOOT, es) && Enabled(Run(BOOT, es), e)
    ensures var s := Run(BOOT, es); var s' := Step(s, e);
      s'.current !in Ran(BOOT, es) ==> (e.EFork? && s'.current == s.nextPid) || (s.current == IDLE && s'.current == INIT)
  {
    var s := Run(BOOT, es);
    BootKnown(es);
    StepBetween(s, e);
    if e.EFork? {
      ForkQueue(s, e.memory, s.current);
    } else {
      NoNewcomer(s, e);
    }
  }

  /** So the process that an exit switches to has run before: its kernel context is initialized, and its
      stack is not copied from the one that has just been freed. */
  lemma ExitGoesToRunner(es: seq<Event>, e: Event)
    requires Possible(BOOT, es) && Enabled(Run(BOOT, es), e) && Ends(Run(BOOT, es), e)
    ensures Step(Run(BOOT, es), e).current in Ran(BOOT, es)
  {
    var s := Run(BOOT, es);
    BootKnown(es);
    ExitEvent(s, e);
    FirstRuns(es, e);
  }
}
