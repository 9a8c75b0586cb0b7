/** Terminals and the clock keep the invariant. */
module TtySteps {
  import opened Pipe
  import opened KernelState
  import opened Placement
  import opened Holding
  import opened Family
  import opened KernelInvariant
  import opened KernelSteps
  import opened CallSteps
  import opened DataSteps

  /** Only terminals, buffers and tick counts differ; a process may start to wait for a transmission. */
  ghost predicate OnlyData(s: State, s': State) {
    s' == s.(procs := s'.procs, queues := s'.queues, busy := s'.busy, lines := s'.lines)
    && s'.procs.Keys == s.procs.Keys
    && (forall l :: Q(s', LockWait(l)) == Q(s, LockWait(l)))
    && forall p | p in s.procs :: DataChange(s.procs[p], s'.procs[p])
  }

  ghost predicate DataChange(f: Proc, g: Proc) {
    g == f.(tx := g.tx, rx := g.rx, rxLen := g.rxLen, ticks := g.ticks, pc := g.pc)
    && (g.pc == f.pc || (g.pc.AfterTtyWrite? && !f.waiting))
  }

  lemma OnlyDataLocked(s: State, s': State)
    requires Locked(s) && OnlyData(s, s')
    ensures Locked(s')
  {
    FrameLocked(s, s');
  }

  lemma OnlyDataRelated(s: State, s': State)
    requires Related(s) && OnlyData(s, s')
    ensures Related(s')
  {
    FrameRelated(s, s');
  }

  lemma OnlyDataResourced(s: State, s': State)
    requires Resourced(s) && OnlyData(s, s')
    ensures Resourced(s')
  {
    FrameResourced(s, s');
  }

  lemma OnlyDataInv(s: State, s': State, run: int)
    requires Inv(s, s.current) && OnlyData(s, s') && Placed(s', run) && Wired(s')
    ensures Inv(s', run)
  {
    assert Look(0);
    OnlyDataLocked(s, s');
    OnlyDataRelated(s, s');
    OnlyDataResourced(s, s');
  }

  // ---- reading ----

  /** The buffered lines of a terminal nobody waits to read from may be anything. */
  lemma LinesInv(s: State, t: nat, ls: seq<seq<Byte>>)
    requires Inv(s, s.current) && Q(s, TtyReceive(t)) == []
    ensures Inv(s.(lines := s.lines[t := ls]), s.current)
  {
    assert Look(0);
    var s' := s.(lines := s.lines[t := ls]);
    assert forall a :: Q(s', a) == Q(s, a);
    SamePlaced(s, s', s.current);
    LinesWired(s, t, ls);
    OnlyDataInv(s, s', s.current);
  }

  lemma LinesWired(s: State, t: nat, ls: seq<seq<Byte>>)
    requires Wired(s) && Q(s, TtyReceive(t)) == []
    ensures Wired(s.(lines := s.lines[t := ls]))
  {
    var s' := s.(lines := s.lines[t := ls]);
    assert forall a :: Q(s', a) == Q(s, a);
    forall r ensures WiredAt(s', r) {
      assert WiredAt(s, r);
    }
  }

  lemma BufferedReadInv(s: State, t: nat, ls: seq<seq<Byte>>, rc: int, data: seq<Byte>)
    requires Runs(s) && Lines(s, t) != []
    ensures var s1 := s.(lines := s.lines[t := ls]);
      Inv(SetProc(Return(s1, rc), s.current, Return(s1, rc).procs[s.current].(data := data)), s.current)
  {
    assert Look(0);
    assert WiredAt(s, t);
    LinesInv(s, t, ls);
    ReturnDataInv(s.(lines := s.lines[t := ls]), rc, data);
  }

  lemma BlockingReadInv(s: State, t: nat, len: nat)
    requires CallsFromUser(s) && Lines(s, t) == []
    ensures var f := s.procs[s.current].(rxBuffer := true, rxLen := len, rx := []);
      var s' := Block(SetProc(s, s.current, f), TtyReceive(t), AfterTtyRead(t));
      Inv(s', s'.current) && Alive(s', s'.current)
  {
    var f := s.procs[s.current].(rxBuffer := true, rxLen := len, rx := []);
    SelfInv(s, f);
    BlockAlive(SetProc(s, s.current, f), TtyReceive(t), AfterTtyRead(t));
  }

  lemma TtyReadInv(s: State, t: int, len: int)
    requires CallsFromUser(s)
    ensures var s' := TtyRead(s, t, len); Inv(s', s'.current) && Alive(s', s'.current)
  {
    if t < 0 || t >= NUM_TERMINALS || len < 0 {
      ReturnInv(s, ERROR);
    } else if Lines(s, t) != [] {
      var line, rest := Lines(s, t)[0], Lines(s, t)[1..];
      var n := if |line| > len then len else |line|;
      BufferedReadInv(s, t, if |line| > len then [Leftover(line, len)] + rest else rest, n, line[..n]);
    } else {
      BlockingReadInv(s, t, len);
    }
  }

  /** A reader in the waiting list gets its bytes. */
  lemma FillInv(s: State, t: nat, p: Pid, f: Proc)
    requires Inv(s, s.current) && p in s.procs && f == s.procs[p].(rx := f.rx, rxLen := f.rxLen)
    ensures Inv(SetProc(s, p, f), s.current)
  {
    assert Look(0);
    var s' := SetProc(s, p, f);
    assert forall a :: Q(s', a) == Q(s, a);
    SamePlaced(s, s', s.current);
    FrameWired(s, s');
    OnlyDataInv(s, s', s.current);
  }

  /** The oldest waiting reader gets the first bytes of the input and becomes ready. */
  function Served(s: State, t: nat, p: Pid, input: seq<Byte>): State
    requires p in s.procs
  {
    var n := if |input| <= s.procs[p].rxLen then |input| else s.procs[p].rxLen;
    Wake(SetProc(s, p, s.procs[p].(rx := input[..n], rxLen := n)), TtyReceive(t), p)
  }

  lemma ServedInv(s: State, t: nat, p: Pid, input: seq<Byte>)
    requires Inv(s, s.current) && p in Q(s, TtyReceive(t)) && p in s.procs
    ensures Inv(Served(s, t, p, input), s.current)
  {
    var n := if |input| <= s.procs[p].rxLen then |input| else s.procs[p].rxLen;
    var f := s.procs[p].(rx := input[..n], rxLen := n);
    FillInv(s, t, p, f);
    assert Q(SetProc(s, p, f), TtyReceive(t)) == Q(s, TtyReceive(t));
    WakeInv(SetProc(s, p, f), s.current, TtyReceive(t), p);
  }

  lemma ServedQueues(s: State, t: nat, input: seq<Byte>)
    requires Q(s, TtyReceive(t)) != [] && Q(s, TtyReceive(t))[0] in s.procs
    ensures Q(Served(s, t, Q(s, TtyReceive(t))[0], input), TtyReceive(t)) == Q(s, TtyReceive(t))[1..]
    ensures var p := Q(s, TtyReceive(t))[0];
      var n := if |input| <= s.procs[p].rxLen then |input| else s.procs[p].rxLen;
      var s1 := SetProc(s, p, s.procs[p].(rx := input[..n], rxLen := n));
      Served(s, t, p, input) == Append(SetQ(s1, TtyReceive(t), Q(s, TtyReceive(t))[1..]), Ready, p)
  {
    var q := Q(s, TtyReceive(t));
    assert Without(q, q[0]) == q[1..];
  }

  lemma DeliverUnfolds(s: State, t: nat, input: seq<Byte>)
    requires Q(s, TtyReceive(t)) != [] && Q(s, TtyReceive(t))[0] in s.procs && input != []
    requires s.procs[Q(s, TtyReceive(t))[0]].rxBuffer
    ensures var p := Q(s, TtyReceive(t))[0];
      var n := if |input| <= s.procs[p].rxLen then |input| else s.procs[p].rxLen;
      Q(Served(s, t, p, input), TtyReceive(t)) == Q(s, TtyReceive(t))[1..]
      && Deliver(s, t, input) == Deliver(Served(s, t, p, input), t, input[n..])
  {
    ServedQueues(s, t, input);
  }

  /** The assert of TrapTtyRecieve: a waiting reader has its receive buffer. */
  lemma ReaderThere(s: State, t: nat)
    requires Placed(s, s.current) && Resourced(s) && Q(s, TtyReceive(t)) != []
    ensures var p := Q(s, TtyReceive(t))[0]; p in s.procs && p in Q(s, TtyReceive(t)) && s.procs[p].rxBuffer
  {
    var p := Q(s, TtyReceive(t))[0];
    assert p in Q(s, TtyReceive(t)) && Listed(s, s.current, TtyReceive(t), p);
  }

  lemma {:induction false} DeliverLives(s: State, t: nat, input: seq<Byte>)
    ensures var s' := Deliver(s, t, input); s'.current == s.current && (Alive(s, s.current) ==> Alive(s', s.current))
    decreases |Q(s, TtyReceive(t))|
  {
    var q := Q(s, TtyReceive(t));
    if q != [] && q[0] in s.procs && input != [] && s.procs[q[0]].rxBuffer {
      var n := if |input| <= s.procs[q[0]].rxLen then |input| else s.procs[q[0]].rxLen;
      DeliverUnfolds(s, t, input);
      DeliverLives(Served(s, t, q[0], input), t, input[n..]);
    }
  }

  lemma DeliverEnds(s: State, t: nat, input: seq<Byte>)
    requires Inv(s, s.current) && (Q(s, TtyReceive(t)) == [] || input == [])
    ensures Inv(Deliver(s, t, input), s.current)
  {
    if Q(s, TtyReceive(t)) == [] && input != [] {
      LinesInv(s, t, Lines(s, t) + [input]);
    } else {
      assert Deliver(s, t, input) == s;
    }
  }

  lemma {:induction false} DeliverInv(s: State, t: nat, input: seq<Byte>)
    requires Inv(s, s.current)
    ensures Inv(Deliver(s, t, input), s.current)
    decreases |Q(s, TtyReceive(t))|
  {
    assert Look(0);
    var q := Q(s, TtyReceive(t));
    if q == [] || input == [] {
      DeliverEnds(s, t, input);
    } else {
      ReaderThere(s, t);
      var n := if |input| <= s.procs[q[0]].rxLen then |input| else s.procs[q[0]].rxLen;
      ServedInv(s, t, q[0], input);
      DeliverUnfolds(s, t, input);
      DeliverInv(Served(s, t, q[0], input), t, input[n..]);
    }
  }

  lemma ReceivedInv(s: State, t: nat, input: seq<Byte>)
    requires Inv(s, s.current) && Alive(s, s.current)
    ensures var s' := Received(s, t, input); Inv(s', s'.current) && Alive(s', s'.current)
  {
    if Q(s, TtyReceive(t)) == [] {
      LinesInv(s, t, Lines(s, t) + [input]);
    } else {
      DeliverInv(s, t, input);
      DeliverLives(s, t, input);
    }
  }

  // ---- writing ----

  /** The caller is last in the terminal's queue; if it is also first, its first chunk is on its way. */
  function Writing(s: State, t: nat, bytes: seq<Byte>, pc: Resume): State
    requires s.current in s.procs
  {
    var me := s.procs[s.current];
    var s1 := if Q(s, TtyTransmit(t)) == [] then s.(busy := s.busy[t := Chunk(bytes)]) else s;
    Append(SetProc(s1, s.current, me.(tx := bytes, pc := pc)), TtyTransmit(t), s.current)
  }

  lemma WritingPlaced(s: State, t: nat, bytes: seq<Byte>, pc: Resume)
    requires Placed(s, s.current) && Alive(s, s.current) && s.current != IDLE && WaitPlace(pc) == TtyTransmit(t)
    ensures Placed(Writing(s, t, bytes, pc), NOBODY)
  {
    NotWaiting(s);
    var f := s.procs[s.current].(tx := bytes, pc := pc);
    EnqueuePlaced(s, TtyTransmit(t), s.current, f);
    var mid, s' := Append(SetProc(s, s.current, f), TtyTransmit(t), s.current), Writing(s, t, bytes, pc);
    assert s'.queues == mid.queues && s'.procs == mid.procs;
    assert forall a :: Q(s', a) == Q(mid, a);
    SamePlaced(mid, s', NOBODY);
  }

  lemma WritingOthers(s: State, t: nat, bytes: seq<Byte>, pc: Resume)
    requires Alive(s, s.current) && !s.procs[s.current].waiting && pc.AfterTtyWrite?
    ensures OnlyData(s, Writing(s, t, bytes, pc))
  {
  }

  lemma WritingWired(s: State, t: nat, bytes: seq<Byte>, pc: Resume)
    requires Placed(s, s.current) && Wired(s) && Alive(s, s.current)
    ensures Wired(Writing(s, t, bytes, pc))
  {
    forall r ensures WiredAt(Writing(s, t, bytes, pc), r) {
      assert WiredAt(s, r);
      WritingWiredAt(s, t, bytes, pc, r);
    }
  }

  lemma WritingWiredAt(s: State, t: nat, bytes: seq<Byte>, pc: Resume, r: nat)
    requires Placed(s, s.current) && WiredAt(s, r) && Alive(s, s.current)
    ensures WiredAt(Writing(s, t, bytes, pc), r)
  {
    var s', q := Writing(s, t, bytes, pc), Q(s, TtyTransmit(r));
    assert Q(s', TtyTransmit(r)) == if r == t then q + [s.current] else q;
    assert Q(s', TtyReceive(r)) == Q(s, TtyReceive(r));
    if q != [] {
      assert q[0] in Q(s, TtyTransmit(r)) && Listed(s, s.current, TtyTransmit(r), q[0]);
    }
  }

  lemma WritingIs(s: State, t: nat, bytes: seq<Byte>, kill: bool)
    requires s.current in s.procs && WiredAt(s, t) && t <= NUM_TERMINALS
    ensures TtyWrite(s, t, bytes, kill) == Dispatch(Writing(s, t, bytes, AfterTtyWrite(t, |bytes|, kill)))
  {
    var me, pc := s.procs[s.current], AfterTtyWrite(t, |bytes|, kill);
    assert s.procs[s.current := me.(tx := bytes)][s.current := me.(tx := bytes, pc := pc)]
        == s.procs[s.current := me.(tx := bytes, pc := pc)];
  }

  lemma TtyWriteInv(s: State, t: nat, bytes: seq<Byte>, kill: bool)
    requires CallsFromUser(s) && t <= NUM_TERMINALS
    ensures var s' := TtyWrite(s, t, bytes, kill); Inv(s', s'.current) && Alive(s', s'.current)
  {
    assert Look(0);
    var pc := AfterTtyWrite(t, |bytes|, kill);
    var mid := Writing(s, t, bytes, pc);
    assert WiredAt(s, t);
    NotWaiting(s);
    WritingIs(s, t, bytes, kill);
    WritingPlaced(s, t, bytes, pc);
    WritingOthers(s, t, bytes, pc);
    WritingWired(s, t, bytes, pc);
    OnlyDataInv(s, mid, NOBODY);
    DispatchInv(mid);
    DispatchOnlyReady(mid);
  }

  /** The trap when the head of the queue has more to send. */
  function NextChunk(s: State, t: nat, p: Pid, rest: seq<Byte>): State
    requires p in s.procs
  {
    SetProc(s, p, s.procs[p].(tx := rest)).(busy := s.busy[t := Chunk(rest)])
  }

  lemma NextChunkInv(s: State, t: nat, p: Pid, rest: seq<Byte>)
    requires Inv(s, s.current) && Q(s, TtyTransmit(t)) != [] && Q(s, TtyTransmit(t))[0] == p && p in s.procs
    ensures Inv(NextChunk(s, t, p, rest), s.current)
  {
    assert Look(0);
    var s' := NextChunk(s, t, p, rest);
    assert forall b :: Q(s', b) == Q(s, b);
    SamePlaced(s, s', s.current);
    NextChunkWired(s, t, p, rest);
    OnlyDataInv(s, s', s.current);
  }

  lemma NextChunkWired(s: State, t: nat, p: Pid, rest: seq<Byte>)
    requires Placed(s, s.current) && Wired(s) && Q(s, TtyTransmit(t)) != [] && Q(s, TtyTransmit(t))[0] == p && p in s.procs
    ensures Wired(NextChunk(s, t, p, rest))
  {
    var s' := NextChunk(s, t, p, rest);
    assert forall b :: Q(s', b) == Q(s, b);
    assert p in Q(s, TtyTransmit(t)) && Listed(s, s.current, TtyTransmit(t), p);
    forall r ensures WiredAt(s', r) {
      assert WiredAt(s, r);
      var q := Q(s, TtyTransmit(r));
      if q != [] {
        assert q[0] in Q(s, TtyTransmit(r)) && Listed(s, s.current, TtyTransmit(r), q[0]);
      }
    }
  }

  /** The trap when the head of the queue is done: it becomes ready, and the next one's first
      chunk, if there is a next one, goes out. */
  function NextWriter(s: State, t: nat, q: seq<Pid>): State
    requires q != [] && (|q| > 1 ==> q[1] in s.procs)
  {
    var s1 := Wake(s, TtyTransmit(t), q[0]);
    if |q| == 1 then s1.(busy := s.busy - {t}) else s1.(busy := s.busy[t := Chunk(s.procs[q[1]].tx)])
  }

  lemma NextWriterPlaced(s: State, t: nat, q: seq<Pid>)
    requires Placed(s, s.current) && q == Q(s, TtyTransmit(t)) != [] && (|q| > 1 ==> q[1] in s.procs)
    ensures Placed(NextWriter(s, t, q), s.current)
  {
    var mid, s' := Wake(s, TtyTransmit(t), q[0]), NextWriter(s, t, q);
    assert q[0] in Q(s, TtyTransmit(t));
    WakePlaced(s, s.current, TtyTransmit(t), q[0]);
    assert s'.queues == mid.queues && s'.procs == mid.procs;
    assert forall b :: Q(s', b) == Q(mid, b);
    SamePlaced(mid, s', s.current);
  }

  lemma NextWriterInv(s: State, t: nat, q: seq<Pid>)
    requires Inv(s, s.current) && q == Q(s, TtyTransmit(t)) != [] && (|q| > 1 ==> q[1] in s.procs)
    ensures Inv(NextWriter(s, t, q), s.current)
  {
    assert Look(0);
    NextWriterPlaced(s, t, q);
    NextWriterWired(s, t, q);
    NextWriterOthers(s, t, q);
    OnlyDataInv(s, NextWriter(s, t, q), s.current);
  }

  lemma NextWriterOthers(s: State, t: nat, q: seq<Pid>)
    requires q == Q(s, TtyTransmit(t)) != [] && (|q| > 1 ==> q[1] in s.procs)
    ensures OnlyData(s, NextWriter(s, t, q))
  {
  }

  lemma NextWriterWired(s: State, t: nat, q: seq<Pid>)
    requires Wired(s) && q == Q(s, TtyTransmit(t)) != [] && (|q| > 1 ==> q[1] in s.procs)
    ensures Wired(NextWriter(s, t, q))
  {
    var s' := NextWriter(s, t, q);
    assert Without(q, q[0]) == q[1..];
    assert forall b | b != Ready && b != TtyTransmit(t) :: Q(s', b) == Q(s, b);
    forall r ensures WiredAt(s', r) {
      assert WiredAt(s, r);
    }
  }

  /** The queue behind an outstanding transmission. */
  lemma WriterThere(s: State, t: nat, k: nat)
    requires Placed(s, s.current) && k < |Q(s, TtyTransmit(t))|
    ensures Q(s, TtyTransmit(t))[k] in s.procs
  {
    var p := Q(s, TtyTransmit(t))[k];
    assert p in Q(s, TtyTransmit(t)) && Listed(s, s.current, TtyTransmit(t), p);
  }

  lemma TransmittedIs(s: State, t: nat)
    requires var q := Q(s, TtyTransmit(t)); q != [] && q[0] in s.procs && (|q| > 1 ==> q[1] in s.procs)
    ensures var q := Q(s, TtyTransmit(t)); var tx := s.procs[q[0]].tx;
      Transmitted(s, t) ==
        if |tx| > TERMINAL_MAX_LINE then NextChunk(s, t, q[0], tx[TERMINAL_MAX_LINE..]) else NextWriter(s, t, q)
  {
    var q := Q(s, TtyTransmit(t));
    var tx := s.procs[q[0]].tx;
    var c := if |tx| > TERMINAL_MAX_LINE then Chunk(tx[TERMINAL_MAX_LINE..])
             else if |q| > 1 then Chunk(s.procs[q[1]].tx) else [];
    assert (s.busy - {t})[t := c] == s.busy[t := c];
  }

  /** The transmit trap never finds its queue empty or the terminal busy. */
  lemma TransmittedInv(s: State, t: nat)
    requires Inv(s, s.current) && Alive(s, s.current) && t in s.busy
    ensures var s' := Transmitted(s, t); Inv(s', s'.current) && Alive(s', s'.current)
  {
    assert Look(0);
    var q := Q(s, TtyTransmit(t));
    assert WiredAt(s, t);
    WriterThere(s, t, 0);
    if |q| > 1 {
      WriterThere(s, t, 1);
    }
    TransmittedIs(s, t);
    var tx := s.procs[q[0]].tx;
    if |tx| > TERMINAL_MAX_LINE {
      NextChunkInv(s, t, q[0], tx[TERMINAL_MAX_LINE..]);
    } else {
      NextWriterInv(s, t, q);
    }
  }

  // ---- the clock ----

  /** A tick splits the delayed processes into those who stay and those whose time is up. */
  lemma {:induction false} TickSplits(s: State, q: seq<Pid>)
    requires NoDup(q)
    ensures NoDup(Remaining(s, q)) && NoDup(Expired(s, q))
    ensures forall p :: p in Remaining(s, q) <==> p in q && TicksOf(s, p) > 1
    ensures forall p :: p in Expired(s, q) <==> p in q && TicksOf(s, p) <= 1
  {
    if q != [] {
      TickSplits(s, q[1..]);
      assert forall p :: p in q <==> p == q[0] || p in q[1..];
      assert [q[0]] + Expired(s, q[1..]) != [] && ([q[0]] + Expired(s, q[1..]))[1..] == Expired(s, q[1..]);
      assert [q[0]] + Remaining(s, q[1..]) != [] && ([q[0]] + Remaining(s, q[1..]))[1..] == Remaining(s, q[1..]);
      assert [] + Expired(s, q[1..]) == Expired(s, q[1..]) && [] + Remaining(s, q[1..]) == Remaining(s, q[1..]);
    }
  }

  lemma {:induction false} NoneExpired(s: State, q: seq<Pid>)
    requires Expired(s, q) == []
    ensures Remaining(s, q) == q
  {
    if q != [] {
      NoneExpired(s, q[1..]);
    }
  }

  lemma TickQueues(s: State)
    ensures var s', d := Tick(s), Q(s, Delayed);
      Q(s', Delayed) == Remaining(s, d) && Q(s', Ready) == Q(s, Ready) + Expired(s, d)
      && forall a | a != Ready && a != Delayed :: Q(s', a) == Q(s, a)
  {
    var d := Q(s, Delayed);
    if Expired(s, d) == [] {
      NoneExpired(s, d);
      assert Q(s, Ready) + [] == Q(s, Ready);
    }
  }

  lemma TickMoves(s: State)
    requires NoDup(Q(s, Delayed))
    ensures Moves(s, Tick(s), Delayed, Remaining(s, Q(s, Delayed)), Expired(s, Q(s, Delayed)))
  {
    TickSplits(s, Q(s, Delayed));
    TickQueues(s);
  }

  lemma TickPlaced(s: State)
    requires Placed(s, s.current)
    ensures Placed(Tick(s), s.current)
  {
    var d := Q(s, Delayed);
    TickMoves(s);
    MovesPlaced(s, Tick(s), s.current, Delayed, Remaining(s, d), Expired(s, d));
  }

  lemma TickWired(s: State)
    requires Placed(s, s.current) && Wired(s)
    ensures Wired(Tick(s)) && OnlyData(s, Tick(s))
  {
    TickQueues(s);
    FrameWired(s, Tick(s));
  }

  lemma TickInv(s: State)
    requires Inv(s, s.current)
    ensures Inv(Tick(s), s.current)
  {
    assert Look(0);
    TickPlaced(s);
    TickWired(s);
    OnlyDataInv(s, Tick(s), s.current);
  }

  /** Idle gives up the CPU without joining any list. */
  lemma IdleLeavesPlaced(s: State)
    requires Placed(s, IDLE) && s.procs[IDLE].pc == Preempted
    ensures Placed(s, NOBODY)
  {
    forall a, p | p in Q(s, a) ensures Listed(s, NOBODY, a, p) {
      assert Listed(s, IDLE, a, p);
    }
    forall p | p in s.procs ensures Somewhere(s, NOBODY, p) {
      assert Somewhere(s, IDLE, p);
    }
  }

  lemma IdleLeaves(s: State)
    requires Inv(s, IDLE) && IDLE in s.procs && s.procs[IDLE].pc == Preempted
    ensures Inv(s, NOBODY)
  {
    assert Look(0);
    IdleLeavesPlaced(s);
  }

  lemma ClockInv(s: State)
    requires Runs(s) && s.procs[s.current].pc == User
    ensures var s' := Clock(s); Inv(s', s'.current) && Alive(s', s'.current)
  {
    var s1 := Tick(s);
    TickInv(s);
    if s.current != IDLE {
      BlockAlive(s1, Ready, Preempted);
    } else {
      SelfInv(s1, s1.procs[IDLE].(pc := Preempted));
      var s2 := SetProc(s1, IDLE, s1.procs[IDLE].(pc := Preempted));
      IdleLeaves(s2);
      DispatchInv(s2);
      DispatchOnlyReady(s2);
    }
  }
}
