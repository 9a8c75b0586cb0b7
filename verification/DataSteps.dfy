/** Condition variables and pipes keep the invariant. */
module DataSteps {
  import opened Pipe
  import opened KernelState
  import opened Placement
  import opened Holding
  import opened Family
  import opened KernelInvariant
  import opened KernelSteps
  import opened CallSteps

  // ---- moving several processes to the ready queue ----

  /** List `a` splits into those who stay and those who become ready, in order; nobody else moves. */
  ghost predicate Moves(s: State, s': State, a: Place, stay: seq<Pid>, go: seq<Pid>) {
    a != Ready && NoDup(stay) && NoDup(go) && (forall p | p in go :: p !in stay)
    && (forall p :: p in Q(s, a) <==> p in stay || p in go)
    && Q(s', a) == stay && Q(s', Ready) == Q(s, Ready) + go
    && (forall b | b != a && b != Ready :: Q(s', b) == Q(s, b))
    && (forall p :: Alive(s', p) <==> Alive(s, p))
    && (forall p | Alive(s, p) :: s'.procs[p].pc == s.procs[p].pc && s'.procs[p].waiting == s.procs[p].waiting)
  }

  lemma MovesPlaced(s: State, s': State, run: int, a: Place, stay: seq<Pid>, go: seq<Pid>)
    requires Placed(s, run) && Moves(s, s', a, stay, go)
    ensures Placed(s', run)
  {
    forall p | p in Q(s, a) ensures p !in Q(s, Ready) {
      assert Listed(s, run, a, p);
    }
    assert forall p | p in go :: p in Q(s, a);
    NoDupConcat(Q(s, Ready), go);
    forall b, r | r in Q(s', b) ensures Listed(s', run, b, r) {
      if r in go {
        assert r in Q(s, a) && Listed(s, run, a, r);
      } else {
        assert r in Q(s, b) && Listed(s, run, b, r);
      }
    }
    forall r | r in s'.procs ensures Somewhere(s', run, r) {
      if Alive(s, r) {
        assert Somewhere(s, run, r);
      }
    }
  }

  // ---- condition variables ----

  function Broadcasts(s: State, id: Id): State {
    SetQ(SetQ(s, Ready, Q(s, Ready) + Q(s, CvarWait(id))), CvarWait(id), [])
  }

  lemma BroadcastsOthers(s: State, id: Id)
    requires Placed(s, s.current)
    ensures Locked(s) ==> Locked(Broadcasts(s, id))
    ensures Related(s) ==> Related(Broadcasts(s, id))
    ensures Wired(s) ==> Wired(Broadcasts(s, id))
  {
    var s' := Broadcasts(s, id);
    assert forall a | a != Ready && a != CvarWait(id) :: Q(s', a) == Q(s, a);
    if Locked(s) {
      FrameLocked(s, s');
    }
    if Related(s) {
      FrameRelated(s, s');
    }
    if Wired(s) {
      FrameWired(s, s');
    }
  }

  lemma BroadcastsInv(s: State, id: Id)
    requires Runs(s)
    ensures Runs(Broadcasts(s, id))
  {
    assert Look(0);
    var s' := Broadcasts(s, id);
    MovesPlaced(s, s', s.current, CvarWait(id), [], Q(s, CvarWait(id)));
    BroadcastsOthers(s, id);
    FrameResourced(s, s');
  }

  lemma BroadcastInv(s: State, id: Id)
    requires Calls(s)
    ensures var s' := Broadcast(s, id); Inv(s', s'.current) && Alive(s', s'.current)
  {
    if id !in s.linked || id !in s.cvars {
      ReturnInv(s, ERROR);
    } else if Q(s, CvarWait(id)) == [] {
      ReturnInv(s, SUCCESS);
    } else {
      BroadcastsInv(s, id);
      ReturnInv(Broadcasts(s, id), SUCCESS);
    }
  }

  lemma SignalInv(s: State, id: Id)
    requires Calls(s)
    ensures var s' := Signal(s, id); Inv(s', s'.current) && Alive(s', s'.current)
  {
    if id !in s.linked || id !in s.cvars {
      ReturnInv(s, ERROR);
    } else if Q(s, CvarWait(id)) == [] {
      ReturnInv(s, SUCCESS);
    } else {
      var p := Q(s, CvarWait(id))[0];
      assert p in Q(s, CvarWait(id));
      WakeInv(s, s.current, CvarWait(id), p);
      ReturnInv(Wake(s, CvarWait(id), p), SUCCESS);
    }
  }

  lemma WaitOnCvarInv(s: State, id: Id, lock: Id)
    requires CallsFromUser(s)
    ensures var s' := WaitOnCvar(s, id, lock); Inv(s', s'.current) && Alive(s', s'.current)
  {
    if id !in s.linked || id !in s.cvars || !CanRelease(s, lock) {
      ReturnInv(s, ERROR);
    } else {
      UnlockInv(s, lock);
      assert lock in Unlock(s, lock).locks;
      BlockAlive(Unlock(s, lock), CvarWait(id), AfterCvarWait(id, lock));
    }
  }

  // ---- pipes ----

  /** Only the contents of a pipe change. */
  lemma PipesInv(s: State, id: Id, b: PipeBuffer)
    requires Runs(s) && id in s.pipes && b.Valid()
    ensures Runs(s.(pipes := s.pipes[id := b]))
  {
    assert Look(0);
    var s' := s.(pipes := s.pipes[id := b]);
    assert forall a :: Q(s', a) == Q(s, a);
    SamePlaced(s, s', s.current);
    FrameLocked(s, s');
    FrameRelated(s, s');
    FrameWired(s, s');
  }

  /** Returning with bytes for the user. */
  lemma ReturnDataInv(s: State, rc: int, data: seq<Byte>)
    requires Runs(s)
    ensures Inv(SetProc(Return(s, rc), s.current, Return(s, rc).procs[s.current].(data := data)), s.current)
  {
    var me := s.procs[s.current];
    SelfInv(s, me.(pc := User, rc := rc, data := data));
    assert s.procs[s.current := me.(pc := User, rc := rc)][s.current := me.(pc := User, rc := rc, data := data)]
        == s.procs[s.current := me.(pc := User, rc := rc, data := data)];
  }

  lemma ReadLoopInv(s: State, id: Id, len: nat)
    requires Calls(s) && id in s.pipes && s.pipes[id].Valid()
    ensures var s' := ReadLoop(s, id, len); Inv(s', s'.current) && Alive(s', s'.current)
  {
    var b := s.pipes[id];
    if b.available < len {
      BlockAlive(s, PipeWait(id), AfterPipeRead(id, len));
    } else {
      ReadTakesOldest(b, len);
      PipesInv(s, id, ReadBuffer(b, len));
      ReturnDataInv(s.(pipes := s.pipes[id := ReadBuffer(b, len)]), len, b.Unread()[..len]);
    }
  }

  lemma PipeReadInv(s: State, id: Id, len: int)
    requires Calls(s)
    ensures var s' := PipeRead(s, id, len); Inv(s', s'.current) && Alive(s', s'.current)
  {
    if len <= 0 {
      ReturnInv(s, if len < 0 then ERROR else SUCCESS);
    } else if id !in s.linked || id !in s.pipes || !s.pipes[id].Valid() {
      ReturnInv(s, ERROR);
    } else {
      ReadLoopInv(s, id, len);
    }
  }

  /** The return of a write changes nothing the waiting readers depend on. */
  lemma WriteReturnInv(s: State, id: Id, bytes: seq<Byte>)
    requires Calls(s) && id in s.pipes && s.pipes[id].Valid()
    ensures var s1 := Return(s.(pipes := s.pipes[id := WriteBuffer(s.pipes[id], bytes)]), |bytes|);
      Inv(s1, s.current)
  {
    WriteAppends(s.pipes[id], bytes);
    PipesInv(s, id, WriteBuffer(s.pipes[id], bytes));
    ReturnInv(s.(pipes := s.pipes[id := WriteBuffer(s.pipes[id], bytes)]), |bytes|);
  }

  lemma PipeWriteInv(s: State, id: Id, bytes: seq<Byte>)
    requires Calls(s)
    ensures Inv(PipeWrite(s, id, bytes), s.current) && PipeWrite(s, id, bytes).current == s.current
  {
    if bytes == [] {
      ReturnInv(s, SUCCESS);
    } else if id !in s.linked || id !in s.pipes || !s.pipes[id].Valid() {
      ReturnInv(s, ERROR);
    } else {
      WriteReturnInv(s, id, bytes);
      var b := WriteBuffer(s.pipes[id], bytes);
      var s1 := Return(s.(pipes := s.pipes[id := b]), |bytes|);
      var found := FirstSatisfied(s, Q(s, PipeWait(id)), b.available);
      assert Q(s1, PipeWait(id)) == Q(s, PipeWait(id));
      if found != [] {
        assert found[0] in found;
        WakeInv(s1, s.current, PipeWait(id), found[0]);
      }
    }
  }
}
