/** Delay: a process sleeps for exactly as many clock interrupts as it asked for. */
module DelayRuns {
  import opened Pipe
  import opened KernelState
  import opened Placement
  import opened KernelInvariant
  import opened KernelRuns
  import opened StepEffects
  import opened TtySteps

  ghost function Ticks(es: seq<Event>): nat {
    if es == [] then 0 else (if es[0].EClock? then 1 else 0) + Ticks(es[1..])
  }

  /** The process is asleep with `k` ticks to go. */
  ghost predicate Sleeps(s: State, p: Pid, k: int) {
    p in Q(s, Delayed) && p in s.procs && s.procs[p].ticks == k
  }

  lemma SleeperApart(s: State, p: Pid)
    requires Between(s) && p in Q(s, Delayed)
    ensures Alive(s, p) && p != s.current && NoDup(Q(s, Delayed))
  {
    assert Look(0);
    assert Listed(s, s.current, Delayed, p);
  }

  lemma OtherStepSleeps(s: State, e: Event, p: Pid, k: int)
    requires Between(s) && Enabled(s, e) && Sleeps(s, p, k) && !e.EClock?
    ensures Sleeps(Step(s, e), p, k)
  {
    SleeperApart(s, p);
    if e.ETransmitted? {
      TransmittedOnly(s, e.tty);
    } else {
      StepLocal(s, e);
      if e.EDelay? {
        DelayCalm(s, e.ticks);
      }
    }
  }

  lemma ClockSleeps(s: State, p: Pid, k: int)
    requires Between(s) && Sleeps(s, p, k) && k > 1
    ensures Sleeps(Clock(s), p, k - 1)
  {
    SleeperApart(s, p);
    ClockTicked(s);
    TickSplits(s, Q(s, Delayed));
  }

  /** For fewer interrupts than the ticks it has left, a sleeping process sleeps on. */
  lemma {:induction false} SleepLasts(s: State, es: seq<Event>, p: Pid, k: int)
    requires Between(s) && Possible(s, es) && Sleeps(s, p, k) && Ticks(es) < k
    ensures Sleeps(Run(s, es), p, k - Ticks(es))
    decreases |es|
  {
    if es != [] {
      StepBetween(s, es[0]);
      if es[0].EClock? {
        ClockSleeps(s, p, k);
        SleepLasts(Step(s, es[0]), es[1..], p, k - 1);
      } else {
        OtherStepSleeps(s, es[0], p, k);
        SleepLasts(Step(s, es[0]), es[1..], p, k);
      }
    }
  }

  /** The CPU and the ready queue in one line: who runs now, who runs next. */
  ghost function Line(s: State): seq<Pid> {
    [s.current] + Q(s, Ready)
  }

  lemma DispatchLine(s: State)
    ensures Line(Dispatch(s)) == if Q(s, Ready) == [] then [IDLE] else Q(s, Ready)
  {
    if Q(s, Ready) != [] {
      assert Q(Dispatch(s), Ready) == Q(s, Ready)[1..];
    }
  }

  /** After a clock interrupt: the ready processes, those whose time is up, and the preempted one. */
  lemma ClockLine(s: State)
    requires s.current in s.procs
    ensures var q := Q(s, Ready) + Expired(s, Q(s, Delayed)) + (if s.current == IDLE then [] else [s.current]);
      Line(Clock(s)) == if q == [] then [IDLE] else q
  {
    var s1 := Tick(s);
    var s2 := SetProc(s1, s.current, s1.procs[s.current].(pc := Preempted));
    var s3 := if s.current != IDLE then Append(s2, Ready, s.current) else s2;
    TickTicked(s);
    assert Q(s2, Ready) == Q(s1, Ready);
    assert Q(s3, Ready) == Q(s1, Ready) + (if s.current == IDLE then [] else [s.current]);
    DispatchLine(s3);
  }

  /** The last tick: the sleeper is off the delay list, and in line before the preempted process. */
  lemma SleepEnds(s: State, p: Pid)
    requires Between(s) && Sleeps(s, p, 1)
    ensures var s' := Clock(s);
      p !in Q(s', Delayed)
      && Line(s') == Q(s, Ready) + Expired(s, Q(s, Delayed)) + (if s.current == IDLE then [] else [s.current])
      && p in Expired(s, Q(s, Delayed))
  {
    var d := Q(s, Delayed);
    SleeperApart(s, p);
    ClockTicked(s);
    TickSplits(s, d);
    ClockLine(s);
  }

  lemma FallsAsleep(s: State, n: int)
    requires Between(s) && Enabled(s, EDelay(n)) && n > 0
    ensures Between(Step(s, EDelay(n))) && Sleeps(Step(s, EDelay(n)), s.current, n)
  {
    StepBetween(s, EDelay(n));
    DelayCalm(s, n);
  }

  /** Delay(n) with n > 0, whatever happens meanwhile: the caller sleeps with n - j ticks to go
      after j < n clock interrupts, and the n-th puts it back in line, before the process it preempts. */
  lemma DelayIsExact(s: State, n: int, es: seq<Event>)
    requires Between(s) && Enabled(s, EDelay(n)) && n > 0 && Possible(Step(s, EDelay(n)), es)
    ensures var s' := Run(Step(s, EDelay(n)), es);
      (Ticks(es) < n ==> Sleeps(s', s.current, n - Ticks(es)))
      && (Ticks(es) == n - 1 && Enabled(s', EClock) ==>
            var s2 := Step(s', EClock);
            s.current !in Q(s2, Delayed) && s.current in Line(s2)
            && exists before, after | s.current in before ::
                 Line(s2) == before + after && after == if s'.current == IDLE then [] else [s'.current])
  {
    FallsAsleep(s, n);
    var s1 := Step(s, EDelay(n));
    var s' := Run(s1, es);
    RunBetween(s1, es);
    if Ticks(es) < n {
      SleepLasts(s1, es, s.current, n);
    }
    if Ticks(es) == n - 1 {
      SleepEnds(s', s.current);
      var before := Q(s', Ready) + Expired(s', Q(s', Delayed));
      assert s.current in before;
      assert Line(Clock(s')) == before + (if s'.current == IDLE then [] else [s'.current]);
    }
  }
}
