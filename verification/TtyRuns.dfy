/** Terminals: what goes out is what was written, in queue order; what comes in reaches the readers in order. */
module TtyRuns {
  import opened Pipe
  import opened KernelState
  import opened Placement
  import opened KernelInvariant
  import opened KernelRuns
  import opened StepEffects
  import opened TtySteps
  import PipeRuns

  // ---- the transmitted stream ----

  ghost function TxOf(s: State, p: Pid): seq<Byte> {
    if p in s.procs then s.procs[p].tx else []
  }

  /** The output of the waiting writers from their transmit pointers on, in queue order. */
  ghost function Output(s: State, q: seq<Pid>): seq<Byte> {
    if q == [] then [] else TxOf(s, q[0]) + Output(s, q[1..])
  }

  /** The part of it that was not yet passed to TtyTransmit. */
  ghost function Unsent(s: State, t: nat): seq<Byte> {
    var all := Output(s, Q(s, TtyTransmit(t)));
    if t in s.busy && |s.busy[t]| <= |all| then all[|s.busy[t]|..] else all
  }

  /** The bytes the event asks to be written to the terminal. */
  ghost function Asked(e: Event, t: nat): seq<Byte> {
    if e.ETtyWrite? && e.tty == t && t < NUM_TERMINALS then e.bytes else if e.EKill? && t == 0 then e.message else []
  }

  /** The chunk the step passes to TtyTransmit. */
  ghost function Sent(s: State, e: Event, t: nat): seq<Byte>
    requires Enabled(s, e)
  {
    var s' := Step(s, e);
    if t in s'.busy && (t !in s.busy || (e.ETransmitted? && e.tty == t)) then s'.busy[t] else []
  }

  ghost function AllAsked(es: seq<Event>, t: nat): seq<Byte> {
    if es == [] then [] else Asked(es[0], t) + AllAsked(es[1..], t)
  }

  ghost function AllSent(s: State, es: seq<Event>, t: nat): seq<Byte>
    requires Possible(s, es)
    decreases |es|
  {
    if es == [] then [] else Sent(s, es[0], t) + AllSent(Step(s, es[0]), es[1..], t)
  }

  lemma {:induction false} OutputSame(s: State, s': State, q: seq<Pid>)
    requires forall p | p in q :: TxOf(s', p) == TxOf(s, p)
    ensures Output(s', q) == Output(s, q)
  {
    if q != [] {
      OutputSame(s, s', q[1..]);
    }
  }

  lemma {:induction false} OutputAppend(s: State, q: seq<Pid>, p: Pid)
    ensures Output(s, q + [p]) == Output(s, q) + TxOf(s, p)
  {
    if q == [] {
      assert [p][1..] == [];
    } else {
      OutputAppend(s, q[1..], p);
      assert (q + [p])[1..] == q[1..] + [p];
    }
  }

  /** The queue, the outstanding chunk and the waiting writers' output are as before. */
  ghost predicate SameOutput(s: State, s': State, t: nat) {
    Q(s', TtyTransmit(t)) == Q(s, TtyTransmit(t))
    && (if t in s.busy then t in s'.busy && s'.busy[t] == s.busy[t] else t !in s'.busy)
    && forall p | p in Q(s, TtyTransmit(t)) :: TxOf(s', p) == TxOf(s, p)
  }

  lemma QueueApart(s: State, t: nat)
    requires Between(s)
    ensures forall p | p in Q(s, TtyTransmit(t)) ::
      p != s.current && Alive(s, p) && forall r | p in Q(s, TtyTransmit(r)) :: r == t
    ensures NoDup(Q(s, TtyTransmit(t))) && WiredAt(s, t)
  {
    assert Look(0);
    forall p | p in Q(s, TtyTransmit(t))
      ensures p != s.current && Alive(s, p) && forall r | p in Q(s, TtyTransmit(r)) :: r == t
    {
      assert Listed(s, s.current, TtyTransmit(t), p);
      forall r | p in Q(s, TtyTransmit(r)) ensures r == t {
        assert Listed(s, s.current, TtyTransmit(r), p);
      }
    }
  }

  /** The event does not concern the terminal's output. */
  ghost predicate Elsewhere(s: State, e: Event, t: nat)
    requires Enabled(s, e)
  {
    Touched(s, e) != TtyTransmit(t)
  }

  lemma ElsewhereInterrupt(s: State, e: Event, t: nat)
    requires Between(s) && Enabled(s, e) && Elsewhere(s, e, t) && (e.EClock? || e.ETransmitted?)
    ensures SameOutput(s, Step(s, e), t)
  {
    QueueApart(s, t);
    if e.EClock? {
      ClockTicked(s);
    } else {
      TransmittedOnly(s, e.tty);
    }
  }

  lemma ElsewhereWrite(s: State, r: nat, bytes: seq<Byte>, kill: bool, t: nat)
    requires Between(s) && r != t && r <= NUM_TERMINALS
    ensures SameOutput(s, TtyWrite(s, r, bytes, kill), t)
  {
    QueueApart(s, t);
    QueueApart(s, r);
    TtyWriteCalm(s, r, bytes, kill);
  }

  lemma ElsewhereCall(s: State, e: Event, t: nat)
    requires Between(s) && Enabled(s, e) && Elsewhere(s, e, t) && !e.EClock? && !e.ETransmitted?
    requires !Touched(s, e).TtyTransmit?
    ensures SameOutput(s, Step(s, e), t)
  {
    QueueApart(s, t);
    StepLocal(s, e);
  }

  lemma ElsewhereSame(s: State, e: Event, t: nat)
    requires Between(s) && Enabled(s, e) && Elsewhere(s, e, t)
    ensures SameOutput(s, Step(s, e), t)
  {
    if e.EClock? || e.ETransmitted? {
      ElsewhereInterrupt(s, e, t);
    } else if !Touched(s, e).TtyTransmit? {
      ElsewhereCall(s, e, t);
    } else if e.EKill? {
      ElsewhereWrite(s, 0, e.message, true, t);
    } else {
      ElsewhereWrite(s, e.tty, e.bytes, false, t);
    }
  }

  lemma ElsewhereSilent(s: State, e: Event, t: nat)
    requires Between(s) && Enabled(s, e) && Elsewhere(s, e, t)
    ensures SameOutput(s, Step(s, e), t) && Asked(e, t) == [] && Sent(s, e, t) == []
  {
    ElsewhereSame(s, e, t);
  }

  /** The step keeps the stream: unsent bytes and what is asked are what is sent and the new unsent bytes. */
  ghost predicate Flows(s: State, e: Event, t: nat)
    requires Enabled(s, e)
  {
    Unsent(s, t) + Asked(e, t) == Sent(s, e, t) + Unsent(Step(s, e), t) && |Sent(s, e, t)| <= TERMINAL_MAX_LINE
  }

  lemma ElsewhereFlows(s: State, e: Event, t: nat)
    requires Between(s) && Enabled(s, e) && Elsewhere(s, e, t)
    ensures Flows(s, e, t)
  {
    ElsewhereSilent(s, e, t);
    OutputSame(s, Step(s, e), Q(s, TtyTransmit(t)));
  }

  /** A writer joins the queue. */
  ghost predicate Joins(s: State, s': State, t: nat, bytes: seq<Byte>) {
    var q := Q(s, TtyTransmit(t));
    Q(s', TtyTransmit(t)) == q + [s.current] && TxOf(s', s.current) == bytes
    && (forall p | p in q :: TxOf(s', p) == TxOf(s, p))
    && (if q == [] then t !in s.busy && t in s'.busy && s'.busy[t] == Chunk(bytes) else s'.busy == s.busy)
  }

  lemma WriteJoins(s: State, t: nat, bytes: seq<Byte>, kill: bool)
    requires Between(s) && t <= NUM_TERMINALS
    ensures Joins(s, TtyWrite(s, t, bytes, kill), t, bytes)
  {
    QueueApart(s, t);
    TtyWriteCalm(s, t, bytes, kill);
    WritingIs(s, t, bytes, kill);
  }

  lemma JoinFlows(s: State, s': State, t: nat, bytes: seq<Byte>)
    requires Joins(s, s', t, bytes) && WiredAt(s, t)
    ensures var sent := if t !in s.busy then s'.busy[t] else [];
      t in s'.busy && Unsent(s, t) + bytes == sent + Unsent(s', t) && |sent| <= TERMINAL_MAX_LINE
  {
    var q := Q(s, TtyTransmit(t));
    OutputSame(s, s', q);
    OutputAppend(s', q, s.current);
    if q != [] {
      assert TxOf(s, q[0]) == s.procs[q[0]].tx;
    }
  }

  lemma WriteFlows(s: State, e: Event, t: nat)
    requires Between(s) && Enabled(s, e) && !e.ETransmitted? && !Elsewhere(s, e, t)
    ensures Flows(s, e, t)
  {
    QueueApart(s, t);
    WriteJoins(s, t, Asked(e, t), e.EKill?);
    JoinFlows(s, Step(s, e), t, Asked(e, t));
  }

  lemma ChunkFlows(s: State, t: nat, q: seq<Pid>)
    requires q == Q(s, TtyTransmit(t)) != [] && q[0] in s.procs && NoDup(q) && WiredAt(s, t)
    requires |s.procs[q[0]].tx| > TERMINAL_MAX_LINE
    ensures var s' := NextChunk(s, t, q[0], s.procs[q[0]].tx[TERMINAL_MAX_LINE..]);
      Unsent(s, t) == s'.busy[t] + Unsent(s', t) && |s'.busy[t]| <= TERMINAL_MAX_LINE
  {
    var tx := s.procs[q[0]].tx;
    var s' := NextChunk(s, t, q[0], tx[TERMINAL_MAX_LINE..]);
    OutputSame(s, s', q[1..]);
    assert Output(s, q)[TERMINAL_MAX_LINE..] == Output(s', q);
  }

  lemma WriterFlows(s: State, t: nat, q: seq<Pid>)
    requires q == Q(s, TtyTransmit(t)) != [] && q[0] in s.procs && (|q| > 1 ==> q[1] in s.procs) && WiredAt(s, t)
    requires |s.procs[q[0]].tx| <= TERMINAL_MAX_LINE
    ensures var s' := NextWriter(s, t, q);
      Unsent(s, t) == (if t in s'.busy then s'.busy[t] else []) + Unsent(s', t)
      && (t in s'.busy ==> |s'.busy[t]| <= TERMINAL_MAX_LINE)
  {
    var s', rest := NextWriter(s, t, q), q[1..];
    assert Without(q, q[0]) == rest && Q(s', TtyTransmit(t)) == rest;
    OutputSame(s, s', rest);
    assert Output(s, q) == s.procs[q[0]].tx + Output(s, rest);
    assert Unsent(s, t) == Output(s, rest);
    if rest != [] {
      ChunkFirst(s', rest, s.procs[q[1]].tx);
    }
  }

  /** The first chunk of a queue's output and what is behind it. */
  lemma ChunkFirst(s: State, q: seq<Pid>, tx: seq<Byte>)
    requires q != [] && TxOf(s, q[0]) == tx
    ensures |Chunk(tx)| <= |Output(s, q)| && Output(s, q) == Chunk(tx) + Output(s, q)[|Chunk(tx)|..]
  {
    assert Output(s, q) == tx + Output(s, q[1..]);
    assert Output(s, q)[..|Chunk(tx)|] == tx[..|Chunk(tx)|];
  }

  /** The end of a transmission: the next chunk of the first writer, or the next writer. */
  lemma TransmissionIs(s: State, t: nat, q: seq<Pid>)
    requires Between(s) && Enabled(s, ETransmitted(t)) && q == Q(s, TtyTransmit(t))
    ensures q != [] && q[0] in s.procs && (|q| > 1 ==> q[1] in s.procs) && NoDup(q) && WiredAt(s, t)
    ensures Step(s, ETransmitted(t)) ==
      if |s.procs[q[0]].tx| > TERMINAL_MAX_LINE then NextChunk(s, t, q[0], s.procs[q[0]].tx[TERMINAL_MAX_LINE..])
      else NextWriter(s, t, q)
  {
    WritersThere(s, t);
    TransmittedIs(s, t);
    QueueApart(s, t);
  }

  lemma TransmissionFlows(s: State, t: nat)
    requires Between(s) && Enabled(s, ETransmitted(t))
    ensures Flows(s, ETransmitted(t), t)
  {
    var q := Q(s, TtyTransmit(t));
    TransmissionIs(s, t, q);
    if |s.procs[q[0]].tx| > TERMINAL_MAX_LINE {
      ChunkFlows(s, t, q);
    } else {
      WriterFlows(s, t, q);
    }
  }

  lemma StepFlows(s: State, e: Event, t: nat)
    requires Between(s) && Enabled(s, e)
    ensures Flows(s, e, t)
  {
    if Elsewhere(s, e, t) {
      ElsewhereFlows(s, e, t);
    } else if e.ETransmitted? {
      TransmissionFlows(s, t);
    } else {
      WriteFlows(s, e, t);
    }
  }

  /** Whatever the interleaving, the chunks sent to a terminal and the bytes still to be sent are,
      in order, the bytes written to it. */
  lemma {:induction false} TransmitStream(s: State, es: seq<Event>, t: nat)
    requires Between(s) && Possible(s, es)
    ensures Unsent(s, t) + AllAsked(es, t) == AllSent(s, es, t) + Unsent(Run(s, es), t)
    decreases |es|
  {
    if es != [] {
      var s1 := Step(s, es[0]);
      StepFlows(s, es[0], t);
      StepBetween(s, es[0]);
      TransmitStream(s1, es[1..], t);
      PipeRuns.Regroup(Unsent(s, t), Asked(es[0], t), AllAsked(es[1..], t),
                       Sent(s, es[0], t), Unsent(s1, t), AllSent(s1, es[1..], t), Unsent(Run(s, es), t));
    }
  }

  /** Exactly one transmission is outstanding on a terminal with waiting writers, and none on another. */
  lemma OneOutstanding(es: seq<Event>, t: nat)
    requires Possible(BOOT, es)
    ensures var s := Run(BOOT, es); var q := Q(s, TtyTransmit(t));
      (t in s.busy <==> q != []) && (q != [] ==> s.busy[t] == Chunk(TxOf(s, q[0])) && |s.busy[t]| <= TERMINAL_MAX_LINE)
  {
    Reached(es);
    QueueApart(Run(BOOT, es), t);
  }

  // ---- how many interrupts a write takes ----

  /** The chunks of an output of `n` bytes; an empty one is transmitted too. */
  ghost function Rounds(n: nat): (r: nat)
    ensures r >= 1
  {
    if n <= TERMINAL_MAX_LINE then 1 else 1 + Rounds(n - TERMINAL_MAX_LINE)
  }

  lemma {:induction false} RoundsIsCeiling(n: nat)
    ensures Rounds(n) == if n == 0 then 1 else (n + TERMINAL_MAX_LINE - 1) / TERMINAL_MAX_LINE
  {
    if n > TERMINAL_MAX_LINE {
      RoundsIsCeiling(n - TERMINAL_MAX_LINE);
    }
  }

  /** The interrupts until `p`, waiting in `q`, is done: the chunks before it and its own. */
  ghost function Work(s: State, q: seq<Pid>, p: Pid): nat {
    if q == [] then 0
    else Rounds(|TxOf(s, q[0])|) + (if q[0] == p then 0 else Work(s, q[1..], p))
  }

  /** The chunks of everybody in `q`. */
  ghost function Backlog(s: State, q: seq<Pid>): nat {
    if q == [] then 0 else Rounds(|TxOf(s, q[0])|) + Backlog(s, q[1..])
  }

  lemma {:induction false} WorkSame(s: State, s': State, q: seq<Pid>, p: Pid)
    requires forall r | r in q :: TxOf(s', r) == TxOf(s, r)
    ensures Work(s', q, p) == Work(s, q, p) && Backlog(s', q) == Backlog(s, q)
  {
    if q != [] {
      WorkSame(s, s', q[1..], p);
    }
  }

  lemma {:induction false} WorkAppend(s: State, q: seq<Pid>, x: Pid, p: Pid)
    ensures p in q ==> Work(s, q + [x], p) == Work(s, q, p)
    ensures x !in q ==> Work(s, q + [x], x) == Backlog(s, q) + Rounds(|TxOf(s, x)|)
  {
    if q == [] {
      assert q + [x] == [x];
    } else {
      WorkAppend(s, q[1..], x, p);
      assert (q + [x])[1..] == q[1..] + [x];
    }
  }

  /** The process waits for `k` more interrupts of the terminal. */
  ghost predicate Writes(s: State, t: nat, p: Pid, k: int) {
    p in Q(s, TtyTransmit(t)) && Work(s, Q(s, TtyTransmit(t)), p) == k
  }

  lemma OtherStepWrites(s: State, e: Event, t: nat, p: Pid, k: int)
    requires Between(s) && Enabled(s, e) && Writes(s, t, p, k) && !(e.ETransmitted? && e.tty == t)
    ensures Writes(Step(s, e), t, p, k)
  {
    var q, s' := Q(s, TtyTransmit(t)), Step(s, e);
    if Elsewhere(s, e, t) {
      ElsewhereSame(s, e, t);
    } else {
      WriteJoins(s, t, Asked(e, t), e.EKill?);
      WorkAppend(s', q, s.current, p);
    }
    WorkSame(s, s', q, p);
  }

  lemma ChunkWrites(s: State, t: nat, q: seq<Pid>, p: Pid)
    requires q == Q(s, TtyTransmit(t)) != [] && q[0] in s.procs && NoDup(q) && p in q
    requires |s.procs[q[0]].tx| > TERMINAL_MAX_LINE
    ensures Work(s, q, p) > 1
    ensures Writes(NextChunk(s, t, q[0], s.procs[q[0]].tx[TERMINAL_MAX_LINE..]), t, p, Work(s, q, p) - 1)
  {
    var s' := NextChunk(s, t, q[0], s.procs[q[0]].tx[TERMINAL_MAX_LINE..]);
    WorkSame(s, s', q[1..], p);
  }

  lemma WriterWrites(s: State, t: nat, q: seq<Pid>, p: Pid)
    requires q == Q(s, TtyTransmit(t)) != [] && q[0] in s.procs && NoDup(q) && (|q| > 1 ==> q[1] in s.procs) && p in q
    requires |s.procs[q[0]].tx| <= TERMINAL_MAX_LINE
    ensures var s' := NextWriter(s, t, q);
      if p == q[0] then Work(s, q, p) == 1 && p !in Q(s', TtyTransmit(t)) && Q(s', Ready) == Q(s, Ready) + [p]
      else Work(s, q, p) > 1 && Writes(s', t, p, Work(s, q, p) - 1)
  {
    var s' := NextWriter(s, t, q);
    assert Without(q, q[0]) == q[1..];
    WorkSame(s, s', q[1..], p);
  }

  /** An interrupt of the terminal is one less to wait for; the last makes the writer ready. */
  lemma InterruptWrites(s: State, t: nat, p: Pid, k: int)
    requires Between(s) && Enabled(s, ETransmitted(t)) && Writes(s, t, p, k)
    ensures var s' := Step(s, ETransmitted(t));
      if k > 1 then Writes(s', t, p, k - 1)
      else k == 1 && p !in Q(s', TtyTransmit(t)) && Q(s', Ready) == Q(s, Ready) + [p]
  {
    var q := Q(s, TtyTransmit(t));
    TransmissionIs(s, t, q);
    if |s.procs[q[0]].tx| > TERMINAL_MAX_LINE {
      ChunkWrites(s, t, q, p);
    } else {
      WriterWrites(s, t, q, p);
    }
  }

  ghost function Interrupts(es: seq<Event>, t: nat): nat {
    if es == [] then 0 else (if es[0].ETransmitted? && es[0].tty == t then 1 else 0) + Interrupts(es[1..], t)
  }

  lemma {:induction false} WriteLasts(s: State, es: seq<Event>, t: nat, p: Pid, k: int)
    requires Between(s) && Possible(s, es) && Writes(s, t, p, k) && Interrupts(es, t) < k
    ensures Writes(Run(s, es), t, p, k - Interrupts(es, t))
    decreases |es|
  {
    if es != [] {
      StepBetween(s, es[0]);
      if es[0].ETransmitted? && es[0].tty == t {
        InterruptWrites(s, t, p, k);
        WriteLasts(Step(s, es[0]), es[1..], t, p, k - 1);
      } else {
        OtherStepWrites(s, es[0], t, p, k);
        WriteLasts(Step(s, es[0]), es[1..], t, p, k);
      }
    }
  }

  /** A writer waits for exactly the chunks queued before it and its own, then becomes ready. */
  lemma WriteIsExact(s: State, t: nat, bytes: seq<Byte>, es: seq<Event>)
    requires Between(s) && t < NUM_TERMINALS && Enabled(s, ETtyWrite(t, bytes)) && Possible(Step(s, ETtyWrite(t, bytes)), es)
    ensures var p, s' := s.current, Run(Step(s, ETtyWrite(t, bytes)), es);
      var n := Backlog(s, Q(s, TtyTransmit(t))) + Rounds(|bytes|);
      (Interrupts(es, t) < n ==> Writes(s', t, p, n - Interrupts(es, t)))
      && (Interrupts(es, t) == n - 1 && Enabled(s', ETransmitted(t)) ==>
            var s2 := Step(s', ETransmitted(t));
            p !in Q(s2, TtyTransmit(t)) && Q(s2, Ready) == Q(s', Ready) + [p])
  {
    var p, q, e := s.current, Q(s, TtyTransmit(t)), ETtyWrite(t, bytes);
    var s1 := Step(s, e);
    StepBetween(s, e);
    QueueApart(s, t);
    WriteJoins(s, t, bytes, false);
    WorkSame(s, s1, q, p);
    WorkAppend(s1, q, p, p);
    var n := Backlog(s, q) + Rounds(|bytes|);
    if Interrupts(es, t) < n {
      WriteLasts(s1, es, t, p, n);
      RunBetween(s1, es);
      if Interrupts(es, t) == n - 1 && Enabled(Run(s1, es), ETransmitted(t)) {
        InterruptWrites(Run(s1, es), t, p, 1);
      }
    }
  }

  // ---- the received stream ----

  ghost function RxOf(s: State, p: Pid): seq<Byte> {
    if p in s.procs then s.procs[p].rx else []
  }

  ghost function Slices(s: State, q: seq<Pid>): seq<Byte> {
    if q == [] then [] else RxOf(s, q[0]) + Slices(s, q[1..])
  }

  /** The reader got at most what it asked for, and all of it if there was `more`. */
  ghost predicate Filled(s: State, s': State, p: Pid, more: bool) {
    p in s.procs && p in s'.procs && s'.procs[p].rxLen == |s'.procs[p].rx| <= s.procs[p].rxLen
    && (more ==> |s'.procs[p].rx| == s.procs[p].rxLen)
  }

  /** The readers in `served` got the first bytes of the input in order; `left` is what nobody took. */
  ghost predicate Distributes(s: State, s': State, served: seq<Pid>, input: seq<Byte>, left: seq<Byte>) {
    Slices(s', served) + left == input
    && forall i | 0 <= i < |served| :: Filled(s, s', served[i], i + 1 < |served| || left != [])
  }

  /** The readers of the terminal's waiting list have buffers to read into. */
  ghost predicate Readers(s: State, t: nat) {
    NoDup(Q(s, TtyReceive(t))) && forall p | p in Q(s, TtyReceive(t)) :: p in s.procs && s.procs[p].rxBuffer
  }

  lemma ServedReaders(s: State, t: nat, input: seq<Byte>)
    requires Readers(s, t) && Q(s, TtyReceive(t)) != []
    ensures var q := Q(s, TtyReceive(t)); var s1 := Served(s, t, q[0], input);
      var n := if |input| <= s.procs[q[0]].rxLen then |input| else s.procs[q[0]].rxLen;
      q[0] in q && Readers(s1, t) && Q(s1, TtyReceive(t)) == q[1..] && Q(s1, Ready) == Q(s, Ready) + [q[0]]
      && s1.lines == s.lines && s1.procs == s.procs[q[0] := s.procs[q[0]].(rx := input[..n], rxLen := n)]
  {
    var q := Q(s, TtyReceive(t));
    assert q[0] in q && Without(q, q[0]) == q[1..];
  }

  /** Where a delivery leaves the lists: the first `k` readers are ready, the rest still wait. */
  ghost predicate Delivered(s: State, s': State, t: nat, k: nat, left: seq<Byte>)
    requires k <= |Q(s, TtyReceive(t))|
  {
    var q := Q(s, TtyReceive(t));
    Q(s', TtyReceive(t)) == q[k..] && Q(s', Ready) == Q(s, Ready) + q[..k]
    && Lines(s', t) == Lines(s, t) + (if left == [] then [] else [left])
    && forall p | p in s.procs && p !in q[..k] :: p in s'.procs && s'.procs[p] == s.procs[p]
  }

  lemma DistributesOne(s: State, s1: State, s': State, p: Pid, served: seq<Pid>, input: seq<Byte>, left: seq<Byte>)
    requires p in s.procs && p in s'.procs && p !in served
    requires var n := if |input| <= s.procs[p].rxLen then |input| else s.procs[p].rxLen;
      s1.procs == s.procs[p := s.procs[p].(rx := input[..n], rxLen := n)] && s'.procs[p] == s1.procs[p]
      && Distributes(s1, s', served, input[n..], left) && (input[n..] == [] ==> served == [] && left == [])
    ensures Distributes(s, s', [p] + served, input, left)
  {
    var n := if |input| <= s.procs[p].rxLen then |input| else s.procs[p].rxLen;
    var all := [p] + served;
    assert all[1..] == served;
    assert input == input[..n] + input[n..];
    assert Slices(s', all) + left == input[..n] + (Slices(s', served) + left);
    forall i | 0 <= i < |all| ensures Filled(s, s', all[i], i + 1 < |all| || left != []) {
      if i > 0 {
        assert all[i] == served[i - 1] && Filled(s1, s', served[i - 1], i < |served| || left != []);
      }
    }
  }

  lemma DeliveredOne(s: State, s1: State, s': State, t: nat, p: Pid, k: nat, left: seq<Byte>)
    requires var q := Q(s, TtyReceive(t));
      q != [] && q[0] == p && p in s.procs && p in s1.procs && Q(s1, TtyReceive(t)) == q[1..] && Q(s1, Ready) == Q(s, Ready) + [p]
      && s1.lines == s.lines && s1.procs == s.procs[p := s1.procs[p]] && k <= |q| - 1
    requires Delivered(s1, s', t, k, left)
    ensures Delivered(s, s', t, k + 1, left)
  {
    var q := Q(s, TtyReceive(t));
    assert q[..k + 1] == [p] + q[1..][..k] && q[k + 1..] == q[1..][k..];
    assert Q(s, Ready) + q[..k + 1] == (Q(s, Ready) + [p]) + q[1..][..k];
  }

  lemma NothingDelivered(s: State, t: nat, input: seq<Byte>)
    requires Q(s, TtyReceive(t)) == [] || (input == [] && Q(s, TtyReceive(t))[0] in s.procs)
    ensures var q, s' := Q(s, TtyReceive(t)), Deliver(s, t, input);
      Dealt(s, s', t, input, 0, input)
  {
    var q := Q(s, TtyReceive(t));
    assert q[0..] == q && q[..0] == [] && Q(s, Ready) + [] == Q(s, Ready);
  }

  /** What the first `k` readers and the buffer got out of the input. */
  ghost predicate Dealt(s: State, s': State, t: nat, input: seq<Byte>, k: nat, left: seq<Byte>) {
    var q := Q(s, TtyReceive(t));
    k <= |q| && forall j: nat | Look(j) ::
      (input == [] ==> k == 0 && left == []) && (left != [] ==> k == |q|)
      && Delivered(s, s', t, k, left) && Distributes(s, s', q[..k], input, left)
  }

  /** The bytes the oldest waiting reader takes. */
  ghost function Share(s: State, t: nat, input: seq<Byte>): (n: nat)
    requires Q(s, TtyReceive(t)) != [] && Q(s, TtyReceive(t))[0] in s.procs
    ensures n <= |input|
  {
    var p := Q(s, TtyReceive(t))[0];
    if |input| <= s.procs[p].rxLen then |input| else s.procs[p].rxLen
  }

  lemma DealtOne(s: State, s': State, t: nat, input: seq<Byte>, k: nat, left: seq<Byte>)
    requires Readers(s, t) && Q(s, TtyReceive(t)) != [] && input != [] && Q(s, TtyReceive(t))[0] in s.procs
    requires Dealt(Served(s, t, Q(s, TtyReceive(t))[0], input), s', t, input[Share(s, t, input)..], k, left)
    ensures Dealt(s, s', t, input, k + 1, left)
  {
    var q := Q(s, TtyReceive(t));
    var s1 := Served(s, t, q[0], input);
    assert Look(0);
    ServedReaders(s, t, input);
    var served := q[1..][..k];
    assert q[0] !in served && q[..k + 1] == [q[0]] + served;
    DeliveredOne(s, s1, s', t, q[0], k, left);
    DistributesOne(s, s1, s', q[0], served, input, left);
  }

  lemma DeliverGoesOn(s: State, t: nat, input: seq<Byte>)
    requires Readers(s, t) && Q(s, TtyReceive(t)) != [] && input != []
    ensures var p := Q(s, TtyReceive(t))[0];
      p in s.procs && Readers(Served(s, t, p, input), t)
      && |Q(Served(s, t, p, input), TtyReceive(t))| < |Q(s, TtyReceive(t))|
      && Deliver(s, t, input) == Deliver(Served(s, t, p, input), t, input[Share(s, t, input)..])
  {
    assert Q(s, TtyReceive(t))[0] in Q(s, TtyReceive(t));
    ServedReaders(s, t, input);
    DeliverUnfolds(s, t, input);
  }

  lemma {:induction false} DeliverDistributes(s: State, t: nat, input: seq<Byte>, s': State) returns (k: nat, left: seq<Byte>)
    requires Readers(s, t) && s' == Deliver(s, t, input)
    ensures Dealt(s, s', t, input, k, left)
    decreases |Q(s, TtyReceive(t))|
  {
    var q := Q(s, TtyReceive(t));
    if q == [] || input == [] {
      k, left := 0, input;
      assert q != [] ==> q[0] in q;
      NothingDelivered(s, t, input);
    } else {
      DeliverGoesOn(s, t, input);
      k, left := DeliverDistributes(Served(s, t, q[0], input), t, input[Share(s, t, input)..], s');
      DealtOne(s, s', t, input, k, left);
      k := k + 1;
    }
  }

  /** One receive interrupt: with nobody waiting the line is buffered; otherwise the input is dealt
      out in queue order, and what is buffered is what is left when every reader has been served. */
  lemma ReceivedDistributes(s: State, t: nat, input: seq<Byte>)
    requires Between(s)
    ensures var q, s' := Q(s, TtyReceive(t)), Received(s, t, input);
      if q == [] then Lines(s', t) == Lines(s, t) + [input] && Q(s', TtyReceive(t)) == []
      else Lines(s, t) == [] && exists k: nat, left :: Dealt(s, s', t, input, k, left)
  {
    var q := Q(s, TtyReceive(t));
    ReadersThere(s, t);
    if q != [] {
      var k, left := DeliverDistributes(s, t, input, Deliver(s, t, input));
      assert Dealt(s, Received(s, t, input), t, input, k, left);
    }
  }

  lemma ReadersThere(s: State, t: nat)
    requires Between(s)
    ensures Readers(s, t) && (Q(s, TtyReceive(t)) == [] || Lines(s, t) == [])
  {
    assert Look(0);
    assert WiredAt(s, t);
    forall p | p in Q(s, TtyReceive(t)) ensures p in s.procs && s.procs[p].rxBuffer {
      assert Listed(s, s.current, TtyReceive(t), p);
    }
  }

  /** Readers never wait on a terminal that has a buffered line. */
  lemma ReadersOrLines(es: seq<Event>, t: nat)
    requires Possible(BOOT, es)
    ensures var s := Run(BOOT, es); Q(s, TtyReceive(t)) == [] || Lines(s, t) == []
  {
    Reached(es);
    assert Look(0);
    assert WiredAt(Run(BOOT, es), t);
  }

  // ---- the buffered branch of KernelTtyRead ----

  /** What a read of `len` bytes keeps of a longer line should be the rest of the line; for lines of
      length `n` it is exactly when nothing was read, or nothing is kept. */
  lemma LeftoverIsRest(n: nat, len: nat)
    requires len <= n
    ensures (forall line: seq<Byte> | |line| == n :: Leftover(line, len) == line[len..]) <==> (len == 0 || len == n)
  {
    if 0 < len < n {
      var line: seq<Byte> := seq(n, i => if i < len then 0 else 1);
      assert Leftover(line, len)[0] == 0 && line[len..][0] == 1;
    }
  }
}
