/** A blocking terminal read, from the call through the interrupt that serves it to its return. */
module ReadRuns {
  import opened Pipe
  import opened KernelState
  import opened Placement
  import opened KernelInvariant
  import opened KernelSteps
  import opened TtySteps
  import opened KernelRuns
  import opened StepEffects
  import opened Outcomes
  import opened TtyRuns
  import opened ReturnRuns

  // ---- which bytes of the input are whose ----

  ghost function RxLen(s: State, p: Pid): nat {
    if p in s.procs then s.procs[p].rxLen else 0
  }

  /** How many bytes the readers in front of `p` asked for. */
  ghost function AskedBefore(s: State, q: seq<Pid>, p: Pid): nat {
    if q == [] || q[0] == p then 0 else RxLen(s, q[0]) + AskedBefore(s, q[1..], p)
  }

  /** The bytes between `from` and `from + len`, as far as there are any. */
  ghost function Cut(input: seq<Byte>, from: nat, len: nat): (r: seq<Byte>)
    requires from <= |input|
    ensures |r| <= len
  {
    if from + len <= |input| then input[from..from + len] else input[from..]
  }

  /** The input reaches the reader: those in front of it do not ask for all of it. */
  ghost predicate Reaches(s: State, t: nat, input: seq<Byte>, p: Pid) {
    AskedBefore(s, Q(s, TtyReceive(t)), p) < |input|
  }

  /** The part of the input behind what the readers in front asked for, at most as much as this one asked for. */
  ghost function Part(s: State, t: nat, input: seq<Byte>, p: Pid): (r: seq<Byte>)
    requires Reaches(s, t, input, p)
    ensures |r| <= RxLen(s, p)
  {
    Cut(input, AskedBefore(s, Q(s, TtyReceive(t)), p), RxLen(s, p))
  }

  /** The reader is off the waiting list, ready, with the bytes in its buffer. */
  ghost predicate Fed(s: State, s': State, t: nat, p: Pid, bytes: seq<Byte>) {
    p in s.procs && s'.procs.Keys == s.procs.Keys
    && s'.procs[p] == s.procs[p].(rx := bytes, rxLen := |bytes|) && p in Q(s', Ready) && p !in Q(s', TtyReceive(t))
  }

  ghost predicate Unfed(s: State, s': State, t: nat, p: Pid) {
    p in s.procs && s'.procs.Keys == s.procs.Keys
    && s'.procs[p] == s.procs[p] && (p in Q(s', TtyReceive(t)) <==> p in Q(s, TtyReceive(t)))
    && (p in Q(s, Ready) ==> p in Q(s', Ready))
  }

  /** A delivery leaves everybody alone who is not waiting for it. */
  lemma {:induction false} DeliverSpares(s: State, t: nat, input: seq<Byte>, p: Pid, s': State)
    requires Readers(s, t) && p in s.procs && p !in Q(s, TtyReceive(t)) && s' == Deliver(s, t, input)
    ensures Unfed(s, s', t, p)
    decreases |Q(s, TtyReceive(t))|
  {
    var q := Q(s, TtyReceive(t));
    if q == [] || input == [] {
      DeliverNothing(s, t, input);
    } else {
      DeliverGoesOn(s, t, input);
      ServedReaders(s, t, input);
      DeliverSpares(Served(s, t, q[0], input), t, input[Share(s, t, input)..], p, s');
    }
  }

  lemma DeliverNothing(s: State, t: nat, input: seq<Byte>)
    requires Q(s, TtyReceive(t)) == [] || (input == [] && Q(s, TtyReceive(t))[0] in s.procs)
    ensures var s' := Deliver(s, t, input); s'.procs == s.procs && SameLists(s, s') && s'.current == s.current
  {
  }

  lemma {:induction false} SameAskedBefore(s: State, s': State, q: seq<Pid>, p: Pid)
    requires forall r | r in q :: RxLen(s', r) == RxLen(s, r)
    ensures AskedBefore(s', q, p) == AskedBefore(s, q, p)
  {
    if q != [] && q[0] != p {
      SameAskedBefore(s, s', q[1..], p);
    }
  }

  /** One turn of the delivery and the readers behind the first. */
  lemma ServedBehind(s: State, t: nat, input: seq<Byte>, p: Pid, s1: State, input1: seq<Byte>)
    requires Readers(s, t) && p in Q(s, TtyReceive(t)) && p != Q(s, TtyReceive(t))[0] && input != []
    requires s1 == Served(s, t, Q(s, TtyReceive(t))[0], input) && input1 == input[Share(s, t, input)..]
    ensures p in s.procs && s1.procs.Keys == s.procs.Keys && s1.procs[p] == s.procs[p] && p in Q(s1, TtyReceive(t))
    ensures Reaches(s, t, input, p) <==> Reaches(s1, t, input1, p)
    ensures Reaches(s, t, input, p) ==> Part(s1, t, input1, p) == Part(s, t, input, p)
  {
    var q := Q(s, TtyReceive(t));
    ServedReaders(s, t, input);
    assert q == [q[0]] + q[1..];
    forall r | r in q[1..] ensures RxLen(s1, r) == RxLen(s, r) {
    }
    SameAskedBefore(s, s1, q[1..], p);
  }

  /** Who gets what: a waiting reader is served exactly if the input reaches it, and gets its part. */
  lemma {:induction false} DeliverFeeds(s: State, t: nat, input: seq<Byte>, p: Pid, s': State)
    requires Readers(s, t) && p in Q(s, TtyReceive(t)) && s' == Deliver(s, t, input)
    ensures if Reaches(s, t, input, p) then Fed(s, s', t, p, Part(s, t, input, p)) else Unfed(s, s', t, p)
    decreases |Q(s, TtyReceive(t))|
  {
    var q := Q(s, TtyReceive(t));
    if input == [] {
      DeliverNothing(s, t, input);
    } else {
      var s1, input1 := Served(s, t, q[0], input), input[Share(s, t, input)..];
      DeliverGoesOn(s, t, input);
      ServedReaders(s, t, input);
      if p == q[0] {
        assert q[0] !in q[1..];
        DeliverSpares(s1, t, input1, p, s');
        assert p in Q(s1, Ready);
        assert input[..Share(s, t, input)] == Part(s, t, input, p);
      } else {
        ServedBehind(s, t, input, p, s1, input1);
        DeliverFeeds(s1, t, input1, p, s');
      }
    }
  }

  // ---- runs ----

  /** The process is blocked in a read of `len` bytes. */
  ghost predicate AwaitsLine(s: State, p: Pid, t: nat, len: nat) {
    p in Q(s, TtyReceive(t)) && Suspended(s, p, AfterTtyRead(t)) && s.procs[p].rxLen == len
  }

  /** The process has been served and has still to run again. */
  ghost predicate HasInput(s: State, p: Pid, t: nat, bytes: seq<Byte>) {
    p !in Q(s, TtyReceive(t)) && Suspended(s, p, AfterTtyRead(t)) && s.procs[p].rx == bytes && s.procs[p].rxLen == |bytes|
  }

  lemma ReaderApart(s: State, p: Pid, t: nat)
    requires Between(s) && p in Q(s, TtyReceive(t))
    ensures p != s.current && Suspended(s, p, AfterTtyRead(t)) && Readers(s, t)
  {
    ReadersThere(s, t);
    assert Look(0);
    assert Listed(s, s.current, TtyReceive(t), p);
  }

  /** The event is the receive interrupt that serves the reader. */
  ghost predicate Feeds(s: State, e: Event, p: Pid, t: nat)
    requires Enabled(s, e)
  {
    e.EReceived? && e.tty == t && p in Q(s, TtyReceive(t)) && Reaches(s, t, e.line, p)
  }

  lemma InputStep(s: State, line: seq<Byte>, p: Pid, t: nat, s': State)
    requires Between(s) && p in s.procs && s' == Received(s, t, line)
    ensures p in Q(s, TtyReceive(t)) && Reaches(s, t, line, p) ==> Fed(s, s', t, p, Part(s, t, line, p))
    ensures !(p in Q(s, TtyReceive(t)) && Reaches(s, t, line, p)) ==> Unfed(s, s', t, p)
  {
    ReadersThere(s, t);
    if Q(s, TtyReceive(t)) == [] {
      assert SameLists(s, s');
    } else if p in Q(s, TtyReceive(t)) {
      DeliverFeeds(s, t, line, p, s');
    } else {
      DeliverSpares(s, t, line, p, s');
    }
  }

  /** Another process's read, and every event that is no receive interrupt of the terminal, leave the buffer of
      a process in a read alone. */
  lemma OthersSpare(s: State, e: Event, p: Pid, t: nat)
    requires Between(s) && Enabled(s, e) && p != s.current && Suspended(s, p, AfterTtyRead(t))
    requires !(e.EReceived? && e.tty == t)
    ensures Suspended(Step(s, e), p, AfterTtyRead(t)) && SameInput(s.procs[p], Step(s, e).procs[p])
    ensures p in Q(Step(s, e), TtyReceive(t)) <==> p in Q(s, TtyReceive(t))
  {
    OthersStay(s, e, p);
    if e.ETtyRead? {
      OtherReads(s, e.tty, e.len, p, t);
    } else {
      OthersElsewhere(s, e, p, t);
    }
  }

  lemma OtherReads(s: State, r: int, len: int, p: Pid, t: nat)
    requires Calling(s) && p != s.current && Alive(s, p)
    ensures var s' := TtyRead(s, r, len);
      p in s'.procs && SameInput(s.procs[p], s'.procs[p]) && (p in Q(s', TtyReceive(t)) <==> p in Q(s, TtyReceive(t)))
  {
    ReadMeans(s, r, len);
  }

  lemma OthersElsewhere(s: State, e: Event, p: Pid, t: nat)
    requires Between(s) && Enabled(s, e) && p != s.current && Suspended(s, p, AfterTtyRead(t))
    requires !(e.EReceived? && e.tty == t) && !e.ETtyRead?
    ensures p in Step(s, e).procs && SameInput(s.procs[p], Step(s, e).procs[p])
    ensures Q(Step(s, e), TtyReceive(t)) == Q(s, TtyReceive(t))
  {
    if e.EClock? {
      ClockTicked(s);
    } else if e.ETransmitted? {
      TransmittedOnly(s, e.tty);
    } else {
      StepLocal(s, e);
      TouchesOther(s, e, t);
      if e.EReceived? {
        OneReadList(s, p, t, e.tty);
      }
      LocalSpares(s, Step(s, e), Touched(s, e), Hands(s, e), p, t);
    }
  }

  lemma TouchesOther(s: State, e: Event, t: nat)
    requires Enabled(s, e) && !(e.EReceived? && e.tty == t) && !e.ETtyRead?
    ensures Touched(s, e) != TtyReceive(t) && (Touched(s, e).TtyReceive? ==> e.EReceived? && Touched(s, e) == TtyReceive(e.tty))
  {
  }

  lemma LocalSpares(s: State, s': State, x: Place, locks: bool, p: Pid, t: nat)
    requires Local(s, s', x, locks) && p != s.current && Alive(s, p) && x != TtyReceive(t)
    requires x.TtyReceive? ==> p !in Q(s, x)
    ensures p in s'.procs && SameInput(s.procs[p], s'.procs[p]) && Q(s', TtyReceive(t)) == Q(s, TtyReceive(t))
  {
  }

  lemma OneReadList(s: State, p: Pid, t: nat, r: nat)
    requires Between(s) && Suspended(s, p, AfterTtyRead(t)) && r != t
    ensures p !in Q(s, TtyReceive(r))
  {
    assert Look(0);
    assert p in Q(s, TtyReceive(r)) ==> Listed(s, s.current, TtyReceive(r), p);
  }

  lemma StepAwaits(s: State, e: Event, p: Pid, t: nat, len: nat)
    requires Between(s) && Enabled(s, e) && AwaitsLine(s, p, t, len)
    ensures if Feeds(s, e, p, t) then HasInput(Step(s, e), p, t, Part(s, t, e.line, p)) && |Part(s, t, e.line, p)| <= len
      else AwaitsLine(Step(s, e), p, t, len)
  {
    ReaderApart(s, p, t);
    if e.EReceived? && e.tty == t {
      InputStep(s, e.line, p, t, Step(s, e));
    } else {
      OthersSpare(s, e, p, t);
    }
  }

  /** The resumption gives the process the bytes. */
  ghost predicate GivesBytes(s: State, e: Event, bytes: seq<Byte>)
    requires Enabled(s, e)
  {
    var s' := Step(s, e);
    Returned(s, s', |bytes|) && s'.procs[s.current].data == bytes
  }

  lemma StepHasInput(s: State, e: Event, p: Pid, t: nat, bytes: seq<Byte>)
    requires Between(s) && Enabled(s, e) && HasInput(s, p, t, bytes)
    ensures if e.EResume? && s.current == p then GivesBytes(s, e, bytes) else HasInput(Step(s, e), p, t, bytes)
  {
    if s.current == p {
      ResumeMeans(s);
    } else if e.EReceived? && e.tty == t {
      InputStep(s, e.line, p, t, Step(s, e));
    } else {
      OthersSpare(s, e, p, t);
    }
  }

  /** The process runs again in the run, and then returns to its program with exactly the bytes. */
  ghost predicate Delivers(s: State, es: seq<Event>, p: Pid, bytes: seq<Byte>)
    requires Possible(s, es)
    decreases |es|
  {
    es != []
    && (if es[0].EResume? && s.current == p then GivesBytes(s, es[0], bytes) else Delivers(Step(s, es[0]), es[1..], p, bytes))
  }

  /** Once served, a reader keeps its bytes until it runs again, and then gets them. */
  lemma {:induction false} InputKept(s: State, es: seq<Event>, p: Pid, t: nat, bytes: seq<Byte>)
    requires Between(s) && Possible(s, es) && HasInput(s, p, t, bytes)
    ensures HasInput(Run(s, es), p, t, bytes) || Delivers(s, es, p, bytes)
    decreases |es|
  {
    if es != [] {
      StepHasInput(s, es[0], p, t, bytes);
      StepBetween(s, es[0]);
      if !(es[0].EResume? && s.current == p) {
        InputKept(Step(s, es[0]), es[1..], p, t, bytes);
      }
    }
  }

  /** Some receive interrupt of the run serves the reader with its part of the input, at most `len` bytes, and
      the reader then has them or has returned with them. */
  ghost predicate IsServed(s: State, es: seq<Event>, p: Pid, t: nat, len: nat)
    requires Possible(s, es)
    decreases |es|
  {
    es != []
    && (if Feeds(s, es[0], p, t) then
          var bytes, s1 := Part(s, t, es[0].line, p), Step(s, es[0]);
          |bytes| <= len && (HasInput(Run(s1, es[1..]), p, t, bytes) || Delivers(s1, es[1..], p, bytes))
        else IsServed(Step(s, es[0]), es[1..], p, t, len))
  }

  lemma {:induction false} AwaitsOn(s: State, es: seq<Event>, p: Pid, t: nat, len: nat)
    requires Between(s) && Possible(s, es) && AwaitsLine(s, p, t, len)
    ensures AwaitsLine(Run(s, es), p, t, len) || IsServed(s, es, p, t, len)
    decreases |es|
  {
    if es != [] {
      StepAwaits(s, es[0], p, t, len);
      StepBetween(s, es[0]);
      if Feeds(s, es[0], p, t) {
        InputKept(Step(s, es[0]), es[1..], p, t, Part(s, t, es[0].line, p));
      } else {
        AwaitsOn(Step(s, es[0]), es[1..], p, t, len);
      }
    }
  }

  /** A read of a terminal without a buffered line, followed over any run: the caller still waits, or a receive
      interrupt has served it with its part of the input, which it has or has returned with. */
  lemma TtyReadReturns(s: State, t: nat, len: nat, s1: State, es: seq<Event>)
    requires Between(s) && Enabled(s, ETtyRead(t, len)) && t < NUM_TERMINALS && Lines(s, t) == []
    requires s1 == Step(s, ETtyRead(t, len)) && Possible(s1, es)
    ensures AwaitsLine(Run(s1, es), s.current, t, len) || IsServed(s1, es, s.current, t, len)
  {
    StartsAwaiting(s, t, len, s1);
    AwaitsOn(s1, es, s.current, t, len);
  }

  lemma StartsAwaiting(s: State, t: nat, len: nat, s1: State)
    requires Calling(s) && t < NUM_TERMINALS && Lines(s, t) == [] && s1 == TtyRead(s, t, len)
    ensures Between(s1) && AwaitsLine(s1, s.current, t, len)
  {
    ReadMeans(s, t, len);
    assert s.current in Q(s1, TtyReceive(t));
    ReaderApart(s1, s.current, t);
  }
}
