/** Pipes: over any run, what was read and what is still unread is what was written, in order. */
module PipeRuns {
  import opened Pipe
  import opened KernelState
  import opened Placement
  import opened KernelInvariant
  import opened KernelRuns
  import opened StepEffects
  import opened KernelSteps

  /** The step is a read of the pipe, called now or resumed. */
  ghost predicate Reads(s: State, e: Event, id: Id)
    requires Enabled(s, e)
  {
    (e.EPipeRead? && e.id == id)
    || (e.EResume? && s.procs[s.current].pc.AfterPipeRead? && s.procs[s.current].pc.pipe == id)
  }

  /** The program that was running is back in user mode with a result that is not ERROR. */
  ghost predicate Succeeds(s: State, s': State) {
    s.current in s'.procs && s'.procs[s.current].pc == User && s'.procs[s.current].rc >= 0
  }

  /** The first `rc` bytes of the user's buffer. */
  ghost function UserBytes(f: Proc): seq<Byte> {
    if 0 <= f.rc <= |f.data| then f.data[..f.rc] else []
  }

  /** The bytes a step gives to a reader of the pipe. */
  ghost function Got(s: State, e: Event, id: Id): seq<Byte>
    requires Enabled(s, e)
  {
    if Reads(s, e, id) && Succeeds(s, Step(s, e)) then UserBytes(Step(s, e).procs[s.current]) else []
  }

  /** The bytes a step takes from a writer to the pipe. */
  ghost function Put(s: State, e: Event, id: Id): seq<Byte>
    requires Enabled(s, e)
  {
    if e.EPipeWrite? && e.id == id && Succeeds(s, Step(s, e)) then e.bytes else []
  }

  ghost function AllGot(s: State, es: seq<Event>, id: Id): seq<Byte>
    requires Possible(s, es)
    decreases |es|
  {
    if es == [] then [] else Got(s, es[0], id) + AllGot(Step(s, es[0]), es[1..], id)
  }

  ghost function AllPut(s: State, es: seq<Event>, id: Id): seq<Byte>
    requires Possible(s, es)
    decreases |es|
  {
    if es == [] then [] else Put(s, es[0], id) + AllPut(Step(s, es[0]), es[1..], id)
  }

  ghost predicate HasPipe(s: State, id: Id) {
    id in s.pipes && s.pipes[id].Valid()
  }

  /** One step keeps the stream: old unread bytes and what is put are what is got and the new unread bytes. */
  ghost predicate Streams(s: State, e: Event, id: Id)
    requires Enabled(s, e) && HasPipe(s, id)
  {
    HasPipe(Step(s, e), id)
    && s.pipes[id].Unread() + Put(s, e, id) == Got(s, e, id) + Step(s, e).pipes[id].Unread()
  }

  lemma ReadLoopStreams(s: State, id: Id, len: nat)
    requires s.current in s.procs && HasPipe(s, id)
    ensures var s' := ReadLoop(s, id, len);
      HasPipe(s', id)
      && (if Succeeds(s, s') then
            |UserBytes(s'.procs[s.current])| == len
            && s.pipes[id].Unread() == UserBytes(s'.procs[s.current]) + s'.pipes[id].Unread()
          else s'.pipes == s.pipes && s.pipes[id].available < len)
  {
    if s.pipes[id].available >= len {
      ReadTakesOldest(s.pipes[id], len);
      assert UserBytes(ReadLoop(s, id, len).procs[s.current]) == s.pipes[id].Unread()[..len];
    }
  }

  /** A read that returns gives the oldest bytes, as many as were asked for; one that cannot, takes nothing. */
  lemma ReadStreams(s: State, e: Event, id: Id)
    requires Enabled(s, e) && HasPipe(s, id) && e.EPipeRead? && e.id == id
    ensures Streams(s, e, id)
    ensures Got(s, e, id) != [] ==> |Got(s, e, id)| == e.len
  {
    if e.len > 0 && id in s.linked {
      ReadLoopStreams(s, id, e.len);
    } else {
      NothingRead(s, id, e.len);
    }
  }

  lemma NothingRead(s: State, id: Id, len: int)
    requires s.current in s.procs && (len <= 0 || id !in s.linked)
    ensures var s' := PipeRead(s, id, len);
      s'.pipes == s.pipes && (Succeeds(s, s') ==> UserBytes(s'.procs[s.current]) == [])
  {
    assert PipeRead(s, id, len) == Return(s, if len == 0 then SUCCESS else ERROR);
  }

  lemma ResumeStreams(s: State, id: Id, len: nat)
    requires Enabled(s, EResume) && HasPipe(s, id) && s.procs[s.current].pc == AfterPipeRead(id, len)
    ensures Streams(s, EResume, id)
    ensures Got(s, EResume, id) != [] ==> |Got(s, EResume, id)| == len
  {
    ReadLoopStreams(s, id, len);
  }

  lemma WriteResult(s: State, id: Id, bytes: seq<Byte>)
    requires s.current in s.procs && HasPipe(s, id)
    ensures var s' := PipeWrite(s, id, bytes);
      if Succeeds(s, s') then
        id in s'.pipes && (if bytes == [] then s'.pipes[id] == s.pipes[id] else s'.pipes[id] == WriteBuffer(s.pipes[id], bytes))
      else s'.pipes == s.pipes
  {
  }

  lemma WriteStreams(s: State, e: Event, id: Id)
    requires Enabled(s, e) && HasPipe(s, id) && e.EPipeWrite? && e.id == id
    ensures Streams(s, e, id)
  {
    WriteResult(s, id, e.bytes);
    WriteAppends(s.pipes[id], e.bytes);
    assert s.pipes[id].Unread() + [] == s.pipes[id].Unread();
  }

  lemma QuietStreams(s: State, e: Event, id: Id)
    requires Enabled(s, e) && HasPipe(s, id) && !Reads(s, e, id) && !e.EPipeWrite? && Step(s, e).pipes == s.pipes
    ensures Streams(s, e, id)
  {
    assert Got(s, e, id) == [] && Put(s, e, id) == [];
  }

  lemma ClockStreams(s: State, id: Id)
    requires Enabled(s, EClock) && HasPipe(s, id)
    ensures Streams(s, EClock, id)
  {
    ClockTicked(s);
    QuietStreams(s, EClock, id);
  }

  lemma TransmissionStreams(s: State, t: nat, id: Id)
    requires Between(s) && Enabled(s, ETransmitted(t)) && HasPipe(s, id)
    ensures Streams(s, ETransmitted(t), id)
  {
    TransmittedPipes(s, t);
    assert Step(s, ETransmitted(t)) == Transmitted(s, t);
    QuietStreams(s, ETransmitted(t), id);
  }

  lemma TransmittedPipes(s: State, t: nat)
    requires Between(s) && t in s.busy
    ensures Transmitted(s, t).pipes == s.pipes
  {
    TransmittedOnly(s, t);
  }

  lemma OtherStreams(s: State, e: Event, id: Id)
    requires Between(s) && Enabled(s, e) && HasPipe(s, id) && !Reads(s, e, id) && !(e.EPipeWrite? && e.id == id)
    requires !e.EClock? && !e.ETransmitted?
    ensures Streams(s, e, id)
  {
    StepLocal(s, e);
    assert Touched(s, e) != PipeWait(id);
  }

  lemma StepStreams(s: State, e: Event, id: Id)
    requires Between(s) && Enabled(s, e) && HasPipe(s, id)
    ensures Streams(s, e, id)
  {
    if e.EPipeWrite? && e.id == id {
      WriteStreams(s, e, id);
    } else if e.EClock? {
      ClockStreams(s, id);
    } else if e.ETransmitted? {
      TransmissionStreams(s, e.tty, id);
    } else if !Reads(s, e, id) {
      OtherStreams(s, e, id);
    } else if e.EPipeRead? {
      ReadStreams(s, e, id);
    } else {
      ResumeStreams(s, id, s.procs[s.current].pc.len);
    }
  }

  /** For any interleaving of readers and writers, blocking or not. */
  lemma {:induction false} PipeStream(s: State, es: seq<Event>, id: Id)
    requires Between(s) && Possible(s, es) && HasPipe(s, id)
    ensures HasPipe(Run(s, es), id)
    ensures s.pipes[id].Unread() + AllPut(s, es, id) == AllGot(s, es, id) + Run(s, es).pipes[id].Unread()
    decreases |es|
  {
    if es != [] {
      var s1 := Step(s, es[0]);
      StepStreams(s, es[0], id);
      StepBetween(s, es[0]);
      PipeStream(s1, es[1..], id);
      Regroup(s.pipes[id].Unread(), Put(s, es[0], id), AllPut(s1, es[1..], id),
              Got(s, es[0], id), s1.pipes[id].Unread(), AllGot(s1, es[1..], id), Run(s, es).pipes[id].Unread());
    }
  }

  /** Two balances in a row are one. */
  lemma Regroup<T>(u: seq<T>, p: seq<T>, ps: seq<T>, g: seq<T>, v: seq<T>, gs: seq<T>, w: seq<T>)
    requires u + p == g + v && v + ps == gs + w
    ensures u + (p + ps) == (g + gs) + w
  {
    assert u + (p + ps) == (u + p) + ps == g + (v + ps) == (g + gs) + w;
  }

  lemma NewPipe(s: State)
    requires Between(s) && Enabled(s, EPipeInit)
    ensures var s1 := Step(s, EPipeInit);
      Between(s1) && HasPipe(s1, s.nextId) && s1.pipes[s.nextId].Unread() == []
  {
    StepBetween(s, EPipeInit);
    PipeInitCalm(s);
  }

  /** From the moment a pipe is made: the bytes read and the bytes unread are the bytes written. */
  lemma NewPipeStream(s: State, es: seq<Event>)
    requires Between(s) && Enabled(s, EPipeInit) && Possible(Step(s, EPipeInit), es)
    ensures var s1 := Step(s, EPipeInit); var s' := Run(s1, es);
      HasPipe(s', s.nextId) && AllPut(s1, es, s.nextId) == AllGot(s1, es, s.nextId) + s'.pipes[s.nextId].Unread()
  {
    NewPipe(s);
    PipeStream(Step(s, EPipeInit), es, s.nextId);
  }

  // ---- which reader a write wakes ----

  /** At most one: the longest waiting reader whose request the buffer can now satisfy. */
  lemma {:induction false} FirstSatisfiedIsFirst(s: State, q: seq<Pid>, available: nat)
    ensures var r := FirstSatisfied(s, q, available);
      if r == [] then forall p | p in q :: Wanted(s, p) > available
      else exists i | 0 <= i < |q| ::
        q[i] == r[0] && Wanted(s, q[i]) <= available && forall j | 0 <= j < i :: Wanted(s, q[j]) > available
  {
    if q != [] && Wanted(s, q[0]) > available {
      FirstSatisfiedIsFirst(s, q[1..], available);
      var r := FirstSatisfied(s, q[1..], available);
      if r != [] {
        var i :| 0 <= i < |q[1..]| && q[1..][i] == r[0] && Wanted(s, q[1..][i]) <= available
          && forall j | 0 <= j < i :: Wanted(s, q[1..][j]) > available;
        assert q[i + 1] == r[0];
        forall j | 0 <= j < i + 1 ensures Wanted(s, q[j]) > available {
          if j > 0 {
            assert q[j] == q[1..][j - 1];
          }
        }
      }
    }
  }

  ghost predicate Satisfied(s: State, p: Pid, available: nat) {
    Wanted(s, p) <= available
  }

  ghost predicate SomeServable(s: State, q: seq<Pid>, n: nat) {
    exists p | p in q :: Satisfied(s, p, n)
  }

  ghost predicate TwoServable(s: State, q: seq<Pid>, n: nat) {
    exists p, p' | p in q && p' in q && p != p' :: Satisfied(s, p, n) && Satisfied(s, p', n)
  }

  /** The first waiting reader that `n` bytes satisfy, if there is one, moved to the back of the ready
      queue, and nobody else moved. So a reader that could be served is left asleep exactly when two
      waiting readers could be. */
  ghost predicate ServesOne(s: State, s': State, id: Id, n: nat) {
    var q, left, r := Q(s, PipeWait(id)), Q(s', PipeWait(id)), FirstSatisfied(s, Q(s, PipeWait(id)), n);
    Q(s', Ready) == Q(s, Ready) + r && (forall p :: p in left <==> p in q && p !in r)
    && (SomeServable(s, left, n) <==> TwoServable(s, q, n))
  }

  lemma OneServed(s: State, s': State, id: Id, n: nat)
    requires NoDup(Q(s, PipeWait(id)))
    requires var q, r := Q(s, PipeWait(id)), FirstSatisfied(s, Q(s, PipeWait(id)), n);
      Q(s', PipeWait(id)) == (if r == [] then q else Without(q, r[0])) && Q(s', Ready) == Q(s, Ready) + r
    ensures ServesOne(s, s', id, n)
  {
    var q, r := Q(s, PipeWait(id)), FirstSatisfied(s, Q(s, PipeWait(id)), n);
    FirstSatisfiedIsFirst(s, q, n);
    if r == [] {
      assert forall p | p in q :: !Satisfied(s, p, n);
    } else {
      assert r[0] in r && r == [r[0]] && Satisfied(s, r[0], n);
      NoDupWithout(q, r[0]);
    }
  }

  lemma WriteWakesOne(s: State, id: Id, bytes: seq<Byte>, s': State)
    requires Between(s) && s.current in s.procs && id in s.linked && HasPipe(s, id) && bytes != []
    requires s' == PipeWrite(s, id, bytes)
    ensures ServesOne(s, s', id, s.pipes[id].available + |bytes|)
  {
    WaitersDiffer(s, id);
    WriteQueues(s, id, bytes);
    OneServed(s, s', id, s.pipes[id].available + |bytes|);
  }

  lemma WaitersDiffer(s: State, id: Id)
    requires Between(s)
    ensures NoDup(Q(s, PipeWait(id)))
  {
    assert Look(0);
  }

  lemma WriteQueues(s: State, id: Id, bytes: seq<Byte>)
    requires s.current in s.procs && id in s.linked && HasPipe(s, id) && bytes != []
    ensures var s', q := PipeWrite(s, id, bytes), Q(s, PipeWait(id));
      var r := FirstSatisfied(s, q, s.pipes[id].available + |bytes|);
      Q(s', PipeWait(id)) == (if r == [] then q else Without(q, r[0])) && Q(s', Ready) == Q(s, Ready) + r
  {
    var b := WriteBuffer(s.pipes[id], bytes);
    var s1 := Return(s.(pipes := s.pipes[id := b]), |bytes|);
    var r := FirstSatisfied(s, Q(s, PipeWait(id)), b.available);
    assert Q(s1, PipeWait(id)) == Q(s, PipeWait(id)) && Q(s1, Ready) == Q(s, Ready);
    if r == [] {
      assert PipeWrite(s, id, bytes) == s1 && Q(s, Ready) + [] == Q(s, Ready);
    } else {
      assert r == [r[0]];
      WakeQueues(s1, PipeWait(id), r[0]);
    }
  }
}
