/** Parents, live children and zombies. */
module Family {
  import opened Pipe
  import opened KernelState
  import opened Placement

  /** The lists of a live process: live children name it as parent, zombies are exited
      children of it, and a process woken from Wait has a zombie to collect. */
  ghost predicate ListsOk(s: State, p: Pid) {
    Alive(s, p) ==>
      NoDup(s.procs[p].live) && NoDup(s.procs[p].zombies)
      && (forall c | c in s.procs[p].live :: Alive(s, c) && s.procs[c].parent == Parent(p))
      && (forall z | z in s.procs[p].zombies :: z in s.procs && !s.procs[z].alive && s.procs[z].parent == Parent(p))
      && (s.procs[p].pc == AfterWait ==>
        if s.procs[p].waiting then s.procs[p].live != [] && s.procs[p].zombies == [] else s.procs[p].zombies != [])
      && (s.procs[p].waiting ==> s.procs[p].pc == AfterWait)
  }

  /** A process with a parent is on the parent's list of live children or of zombies. */
  ghost predicate ParentOk(s: State, c: Pid) {
    c in s.procs ==>
      (!s.procs[c].alive ==> s.procs[c].parent.Parent?)
      && (s.procs[c].parent.Parent? ==>
        var p := s.procs[c].parent.pid;
        p != c && Alive(s, p) && (if s.procs[c].alive then c in s.procs[p].live else c in s.procs[p].zombies))
  }

  ghost predicate Related(s: State) {
    (forall p | p in s.procs :: p < s.nextPid)
    && (forall p {:trigger ListsOk(s, p)} | p in s.procs :: ListsOk(s, p))
    && (forall c {:trigger ParentOk(s, c)} | c in s.procs :: ParentOk(s, c))
    && IDLE in s.procs && s.procs[IDLE].parent.NoParent? && s.procs[IDLE].live == [] && s.procs[IDLE].zombies == []
  }

  /** Steps that leave the family alone and neither enter nor leave Wait. */
  ghost predicate KinFrame(s: State, s': State) {
    s'.nextPid >= s.nextPid && s'.procs.Keys == s.procs.Keys
    && forall p | p in s.procs ::
      s'.procs[p].alive == s.procs[p].alive && s'.procs[p].parent == s.procs[p].parent
      && s'.procs[p].live == s.procs[p].live && s'.procs[p].zombies == s.procs[p].zombies
      && s'.procs[p].waiting == s.procs[p].waiting
      && (s'.procs[p].pc == s.procs[p].pc || (s'.procs[p].pc != AfterWait && !s.procs[p].waiting))
  }

  lemma FrameRelated(s: State, s': State)
    requires Related(s) && KinFrame(s, s')
    ensures Related(s')
  {
    forall p | p in s'.procs ensures ListsOk(s', p) {
      assert ListsOk(s, p);
    }
    forall c | c in s'.procs ensures ParentOk(s', c) {
      assert ParentOk(s, c);
    }
  }

  lemma ForkLists(s: State, r: Pid)
    requires Related(s) && Alive(s, s.current) && s.current != IDLE && !s.procs[s.current].waiting
    requires r in Fork(s, true).procs
    ensures ListsOk(Fork(s, true), r)
  {
    assert ListsOk(s, s.current);
    if r == s.current {
      assert s.nextPid !in s.procs[r].live;
      NoDupAppend(s.procs[r].live, s.nextPid);
    } else if r != s.nextPid {
      assert ListsOk(s, r);
    }
  }

  lemma ForkParent(s: State, c: Pid)
    requires Related(s) && Alive(s, s.current) && c in Fork(s, true).procs
    ensures ParentOk(Fork(s, true), c)
  {
    if c != s.nextPid {
      assert ParentOk(s, c);
    }
  }

  lemma ForkRelated(s: State)
    requires Related(s) && Alive(s, s.current) && s.current != IDLE && !s.procs[s.current].waiting
    ensures Related(Fork(s, true))
  {
    var s' := Fork(s, true);
    assert s.nextPid !in s.procs;
    forall r | r in s'.procs ensures ListsOk(s', r) {
      ForkLists(s, r);
    }
    forall c | c in s'.procs ensures ParentOk(s', c) {
      ForkParent(s, c);
    }
  }

  lemma OrphanLists(s: State, r: Pid)
    requires Related(s) && Alive(s, s.current) && !s.procs[s.current].waiting && s.procs[s.current].pc != AfterWait
    requires r in Orphan(s).procs
    ensures ListsOk(Orphan(s), r)
  {
    var s', p := Orphan(s), s.current;
    assert ListsOk(s, p) && ListsOk(s, r);
    if r != p && Alive(s, r) {
      forall c | c in s.procs[r].live ensures (c in s'.procs && s'.procs[c] == s.procs[c]) || c == p {
        assert c !in s.procs[p].live && c !in s.procs[p].zombies;
      }
    }
  }

  lemma OrphanParent(s: State, c: Pid)
    requires Related(s) && Alive(s, s.current) && c in Orphan(s).procs
    ensures ParentOk(Orphan(s), c)
  {
    assert ParentOk(s, c) && ListsOk(s, s.current);
    if s.procs[c].parent.Parent? {
      assert ListsOk(s, s.procs[c].parent.pid);
    }
  }

  lemma OrphanRelated(s: State)
    requires Related(s) && Alive(s, s.current) && !s.procs[s.current].waiting && s.procs[s.current].pc != AfterWait
    requires s.current != IDLE
    ensures Related(Orphan(s)) && Orphan(s).current == s.current
  {
    var s' := Orphan(s);
    assert ListsOk(s, s.current);
    forall r | r in s'.procs ensures ListsOk(s', r) {
      OrphanLists(s, r);
    }
    forall c | c in s'.procs ensures ParentOk(s', c) {
      OrphanParent(s, c);
    }
    assert IDLE in s'.procs && s'.procs[IDLE] == s.procs[IDLE] by {
      assert ParentOk(s, IDLE);
    }
  }

  /** What Bury does to the process table. */
  lemma BuryProcs(s: State, status: int)
    requires Related(s) && Alive(s, s.current)
    ensures var p, s' := s.current, Bury(s, status);
      s'.nextPid == s.nextPid
      && match s.procs[p].parent
         case NoParent => s'.procs == s.procs - {p}
         case Parent(pp) =>
           pp != p && Alive(s, pp) && p in s.procs[pp].live
           && s'.procs == s.procs[p := s.procs[p].(alive := false, exitStatus := status)]
                                 [pp := s.procs[pp].(live := Without(s.procs[pp].live, p),
                                                     zombies := s.procs[pp].zombies + [p], waiting := false)]
  {
    assert ParentOk(s, s.current);
  }

  lemma BuryLists(s: State, status: int, r: Pid)
    requires Related(s) && Alive(s, s.current) && s.procs[s.current].live == [] && s.procs[s.current].zombies == []
    requires r in Bury(s, status).procs
    ensures ListsOk(Bury(s, status), r)
  {
    var p := s.current;
    BuryProcs(s, status);
    assert ListsOk(s, r);
    if s.procs[p].parent == Parent(r) {
      NoDupWithout(s.procs[r].live, p);
      assert p !in s.procs[r].zombies;
      NoDupAppend(s.procs[r].zombies, p);
    } else if Alive(s, r) {
      assert p !in s.procs[r].live && p !in s.procs[r].zombies;
    }
  }

  lemma BuryParent(s: State, status: int, c: Pid)
    requires Related(s) && Alive(s, s.current) && s.procs[s.current].live == [] && s.procs[s.current].zombies == []
    requires c in Bury(s, status).procs
    ensures ParentOk(Bury(s, status), c)
  {
    BuryProcs(s, status);
    assert ParentOk(s, c);
  }

  /** An exit keeps the family consistent, and wakes a parent blocked in Wait with a zombie to collect. */
  lemma BuryRelated(s: State, status: int)
    requires Related(s) && Alive(s, s.current) && s.procs[s.current].live == [] && s.procs[s.current].zombies == []
    requires s.current != IDLE
    ensures Related(Bury(s, status))
  {
    var s' := Bury(s, status);
    BuryProcs(s, status);
    forall r | r in s'.procs ensures ListsOk(s', r) {
      BuryLists(s, status, r);
    }
    forall c | c in s'.procs ensures ParentOk(s', c) {
      BuryParent(s, status, c);
    }
    assert s.procs[s.current].parent != Parent(IDLE) by {
      assert ListsOk(s, IDLE);
    }
  }

  lemma CollectRelated(s: State)
    requires Related(s) && Alive(s, s.current) && s.procs[s.current].zombies != [] && !s.procs[s.current].waiting
    ensures Related(Collect(s)) && Collect(s).mode == s.mode
  {
    var s', p := Collect(s), s.current;
    assert ListsOk(s, p) && ParentOk(s, p);
    var z := s.procs[p].zombies;
    assert z == [z[0]] + z[1..] && z[0] in z && z[0] != p;
    assert s'.procs.Keys == s.procs.Keys - {z[0]};
    forall r | r in s'.procs ensures ListsOk(s', r) {
      CollectLists(s, r);
    }
    forall c | c in s'.procs ensures ParentOk(s', c) {
      CollectParent(s, c);
    }
  }

  lemma CollectLists(s: State, r: Pid)
    requires Related(s) && Alive(s, s.current) && s.procs[s.current].zombies != [] && !s.procs[s.current].waiting
    requires r in s.procs && r != s.procs[s.current].zombies[0]
    ensures ListsOk(Collect(s), r)
  {
    var z := s.procs[s.current].zombies;
    assert ListsOk(s, r) && ListsOk(s, s.current) && z[0] in z;
    assert z == [z[0]] + z[1..];
  }

  lemma CollectParent(s: State, c: Pid)
    requires Related(s) && Alive(s, s.current) && s.procs[s.current].zombies != []
    requires c in s.procs && c != s.procs[s.current].zombies[0]
    ensures ParentOk(Collect(s), c)
  {
    var z := s.procs[s.current].zombies;
    assert ParentOk(s, c) && ListsOk(s, s.current) && z[0] in z;
    assert z == [z[0]] + z[1..];
  }
}
