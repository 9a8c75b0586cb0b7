/** Who owns a physical frame, in every run of the kernel calls that change memory. The state
    holds every page table by owner; each step is the specification the imperative kernel
    call is verified against. */
module Ownership {
  import opened Hardware
  import opened PMem
  import opened VMem
  import opened Copy
  import opened AddressSpace

  datatype Owner = UserSpace(pid: nat) | KernelStack(pid: nat) | KernelHeap

  type Tables = map<Owner, seq<Pte>>

  ghost predicate Owns(tb: Tables, o: Owner, i: int, f: int) {
    o in tb && 0 <= i < |tb[o]| && tb[o][i].valid && tb[o][i].pfn == f
  }

  ghost predicate Owned(tb: Tables, f: int) {
    exists o, i :: Owns(tb, o, i, f)
  }

  /** Every owned frame exists, is not free, and has one owning entry. */
  ghost predicate Exclusive(tb: Tables, q: seq<nat>, frames: nat) {
    (forall o, i, f | Owns(tb, o, i, f) :: f < frames && f !in q)
    && (forall o, i, o', i', f | Owns(tb, o, i, f) && Owns(tb, o', i', f) :: o == o' && i == i')
  }

  ghost predicate Sound(tb: Tables, q: seq<nat>, frames: nat) {
    Exclusive(tb, q, frames) && Distinct(q) && Below(q, frames)
  }

  /** The same frames are free or owned in both states. */
  ghost predicate Conserves(tb: Tables, q: seq<nat>, tb': Tables, q': seq<nat>) {
    forall f :: (f in q || Owned(tb, f)) <==> (f in q' || Owned(tb', f))
  }

  /** What one page table operation may do. */
  ghost predicate Keeps(tb: Tables, q: seq<nat>, tb': Tables, q': seq<nat>, frames: nat) {
    Sound(tb', q', frames) && Conserves(tb, q, tb', q')
  }

  lemma SoundPrivate(tb: Tables, q: seq<nat>, frames: nat, o: Owner)
    requires Sound(tb, q, frames) && o in tb
    ensures Private(tb[o], q, frames)
  {
    var t := tb[o];
    forall i | 0 <= i < |t| && t[i].valid ensures t[i].pfn < frames && t[i].pfn !in q {
      assert Owns(tb, o, i, t[i].pfn);
    }
    forall i, j | 0 <= i < j < |t| && t[i].valid && t[j].valid ensures t[i].pfn != t[j].pfn {
      assert Owns(tb, o, i, t[i].pfn) && Owns(tb, o, j, t[j].pfn);
    }
  }

  ghost predicate NewlyMaps(was: seq<Pte>, t: seq<Pte>, i: int, f: int) {
    0 <= i < |t| == |was| && t[i].valid && !was[i].valid && t[i].pfn == f
  }

  ghost predicate Placed(was: seq<Pte>, t: seq<Pte>, f: int) {
    exists i :: NewlyMaps(was, t, i, f)
  }

  /** A table may take frames from the head of the queue for blank entries. */
  lemma TakeKeeps(tb: Tables, q: seq<nat>, frames: nat, o: Owner, t: seq<Pte>, n: nat)
    requires Sound(tb, q, frames) && n <= |q| && o in tb && |t| == |tb[o]|
    requires forall i | 0 <= i < |t| && tb[o][i].valid :: t[i].valid && t[i].pfn == tb[o][i].pfn
    requires forall i | 0 <= i < |t| && t[i].valid && !tb[o][i].valid :: t[i].pfn in q[..n]
    requires forall i, j | 0 <= i < j < |t| && t[i].valid && t[j].valid && !tb[o][i].valid && !tb[o][j].valid ::
      t[i].pfn != t[j].pfn
    requires forall k | 0 <= k < n :: Placed(tb[o], t, q[k])
    ensures Keeps(tb, q, tb[o := t], q[n..], frames)
  {
    var tb', q' := tb[o := t], q[n..];
    assert q == q[..n] + q';
    assert forall f | f in q[..n] :: f in q && f !in q' && f < frames;
    assert forall f | f in q' :: f in q;
    forall u, i, f | Owns(tb', u, i, f)
      ensures Owns(tb, u, i, f) || (u == o && !tb[o][i].valid && f in q[..n])
    {
    }
    forall u, i, f | Owns(tb, u, i, f) ensures Owns(tb', u, i, f) {
    }
    forall f | f in q ensures f in q' || Owned(tb', f) {
      if f !in q' {
        var k :| 0 <= k < n && q[k] == f;
        var i :| NewlyMaps(tb[o], t, i, q[k]);
        assert Owns(tb', o, i, f);
      }
    }
  }

  lemma MapKeeps(tb: Tables, q: seq<nat>, frames: nat, o: Owner, s: Space, lo: nat, n: nat, prot: Prot)
    requires Sound(tb, q, frames) && o in tb && s.t == tb[o] && lo + n <= |s.t|
    requires forall i | lo <= i < lo + n :: !s.t[i].valid
    ensures var c := MapPages(s, q, lo, n, prot);
      Keeps(tb, q, tb[o := c.space.t], c.queue, frames)
  {
    var t := MapPages(s, q, lo, n, prot).space.t;
    if n <= |q| {
      forall k | 0 <= k < n
        ensures Placed(tb[o], t, q[k])
      {
        assert q[..n][k] == q[k];
        assert NewlyMaps(tb[o], t, lo + k, q[k]);
      }
      TakeKeeps(tb, q, frames, o, t, n);
    } else {
      TakeKeeps(tb, q, frames, o, t, 0);
      assert q[0..] == q;
    }
  }

  /** The frames of pages lo..hi are the ones those entries own. */
  lemma SliceFrames(tb: Tables, o: Owner, lo: nat, hi: nat)
    requires o in tb && lo <= hi <= |tb[o]|
    ensures forall f | f in ValidPfns(tb[o][lo..hi]) :: exists i :: lo <= i < hi && Owns(tb, o, i, f)
    ensures forall i, f | lo <= i < hi && Owns(tb, o, i, f) :: f in ValidPfns(tb[o][lo..hi])
  {
    var mid := tb[o][lo..hi];
    forall f | f in ValidPfns(mid) ensures exists i :: lo <= i < hi && Owns(tb, o, i, f) {
      var k :| 0 <= k < |ValidPfns(mid)| && ValidPfns(mid)[k] == f;
      var i := ValidPfnsMember(mid, k);
      assert Owns(tb, o, lo + i, f);
    }
    forall i, f | lo <= i < hi && Owns(tb, o, i, f) ensures f in ValidPfns(mid) {
      ValidPfnsAt(mid, i - lo);
    }
  }

  lemma ClearedOwns(tb: Tables, o: Owner, lo: nat, hi: nat, u: Owner, i: int, f: int)
    requires o in tb && lo <= hi <= |tb[o]|
    ensures Owns(tb[o := Cleared(tb[o], lo, hi)], u, i, f) <==> Owns(tb, u, i, f) && !(u == o && lo <= i < hi)
  {
  }

  lemma UnmapKeeps(tb: Tables, q: seq<nat>, frames: nat, o: Owner, s: Space, lo: nat, hi: nat)
    requires Sound(tb, q, frames) && o in tb && s.t == tb[o] && lo <= hi <= |s.t|
    ensures var c := UnmapPages(s, q, lo, hi);
      Keeps(tb, q, tb[o := c.space.t], c.queue, frames)
  {
    var gone := ValidPfns(s.t[lo..hi]);
    var tb', q' := tb[o := Cleared(s.t, lo, hi)], q + gone;
    SoundPrivate(tb, q, frames, o);
    PrivateReleasable(s.t, q, frames, lo, hi);
    SliceFrames(tb, o, lo, hi);
    forall u, i, f ensures Owns(tb', u, i, f) <==> Owns(tb, u, i, f) && !(u == o && lo <= i < hi) {
      ClearedOwns(tb, o, lo, hi, u, i, f);
    }
    assert Below(q', frames);
    assert forall f :: f in q' <==> f in q || f in gone;
  }

  lemma KeepsTrans(a: Tables, p: seq<nat>, b: Tables, q: seq<nat>, c: Tables, r: seq<nat>, frames: nat)
    requires Keeps(a, p, b, q, frames) && Keeps(b, q, c, r, frames)
    ensures Keeps(a, p, c, r, frames)
  {
  }

  lemma {:induction false} MapSegmentsKeeps(tb: Tables, q: seq<nat>, frames: nat, o: Owner, s: Space, segments: seq<Segment>)
    requires Sound(tb, q, frames) && o in tb && s.t == tb[o] && Mappable(s.t, segments)
    ensures var c := MapSegments(s, q, segments);
      Keeps(tb, q, tb[o := c.space.t], c.queue, frames)
    decreases |segments|
  {
    if segments == [] {
      assert tb[o := s.t] == tb;
    } else {
      var c := MapPages(s, q, segments[0].lo, segments[0].n, READ_WRITE);
      MapKeeps(tb, q, frames, o, s, segments[0].lo, segments[0].n, READ_WRITE);
      if c.ok {
        var mid := tb[o := c.space.t];
        MappableStep(s, q, segments);
        MapSegmentsKeeps(mid, c.queue, frames, o, c.space, segments[1..]);
        var d := MapSegments(c.space, c.queue, segments[1..]);
        assert mid[o := d.space.t] == tb[o := d.space.t];
        KeepsTrans(tb, q, mid, c.queue, tb[o := d.space.t], d.queue, frames);
      }
    }
  }

  lemma {:induction false} GrowKeeps(tb: Tables, q: seq<nat>, frames: nat, o: Owner, s: Space, from: int, page: nat)
    requires Sound(tb, q, frames) && o in tb && s.t == tb[o] && page - 1 <= from < |s.t|
    requires forall i | page <= i <= from :: !s.t[i].valid
    ensures var c := Grow(s, q, from, page);
      Keeps(tb, q, tb[o := c.space.t], c.queue, frames)
    decreases from - page
  {
    assert tb[o := s.t] == tb;
    if from >= page && q != [] {
      var t := s.t[from := Pte(true, READ_WRITE, q[0])];
      assert t[from].pfn == q[..1][0] && NewlyMaps(tb[o], t, from, q[0]);
      TakeKeeps(tb, q, frames, o, t, 1);
      var mid := tb[o := t];
      GrowKeeps(mid, q[1..], frames, o, s.(t := t), from - 1, page);
      var d := Grow(s.(t := t), q[1..], from - 1, page);
      assert mid[o := d.space.t] == tb[o := d.space.t];
      KeepsTrans(tb, q, mid, q[1..], tb[o := d.space.t], d.queue, frames);
    }
  }

  /** Changing protections changes no ownership. */
  lemma ProtectKeeps(tb: Tables, q: seq<nat>, frames: nat, o: Owner, n: nat, prot: Prot)
    requires Sound(tb, q, frames) && o in tb
    ensures Keeps(tb, q, tb[o := Protected(tb[o], 0, n, prot)], q, frames)
  {
    var tb' := tb[o := Protected(tb[o], 0, n, prot)];
    assert forall u, i, f :: Owns(tb', u, i, f) <==> Owns(tb, u, i, f);
  }

  lemma BrkKeeps(tb: Tables, q: seq<nat>, frames: nat, o: Owner, s: Space, page: nat)
    requires Sound(tb, q, frames) && o in tb && s.t == tb[o] && Layout(s)
    ensures var c := Brk(s, q, page);
      Keeps(tb, q, tb[o := c.space.t], c.queue, frames)
  {
    assert tb[o := s.t] == tb;
    if s.brk < page < s.lowest {
      MapKeeps(tb, q, frames, o, s, s.brk, page - s.brk, READ_WRITE);
    } else if page < s.brk {
      UnmapKeeps(tb, q, frames, o, s, page, s.brk);
    }
  }

  lemma LoadKeeps(tb: Tables, q: seq<nat>, frames: nat, o: Owner, s: Space, text: nat, data: nat, stack: nat)
    requires Sound(tb, q, frames) && o in tb && s.t == tb[o]
    ensures var c := Load(s, q, text, data, stack);
      Keeps(tb, q, tb[o := c.space.t], c.queue, frames)
  {
    assert tb[o := s.t] == tb;
    if stack + text + data < |s.t| {
      var freed, segments := UnmapPages(s, q, 0, |s.t|), Segments(|s.t|, text, data, stack);
      var c := MapSegments(freed.space, freed.queue, segments);
      var one, two := tb[o := freed.space.t], tb[o := c.space.t];
      LoadSteps(s, q, text, data, stack);
      UnmapKeeps(tb, q, frames, o, s, 0, |s.t|);
      MapSegmentsKeeps(one, freed.queue, frames, o, freed.space, segments);
      assert one[o := c.space.t] == two;
      KeepsTrans(tb, q, one, freed.queue, two, c.queue, frames);
      ProtectKeeps(two, c.queue, frames, o, text, READ_EXEC);
      var three := Protected(c.space.t, 0, text, READ_EXEC);
      assert two[o := three] == tb[o := three];
      KeepsTrans(tb, q, two, c.queue, tb[o := three], c.queue, frames);
    }
  }

  /** A process that is laid out has the page table LoadProgram and later calls leave; one whose
      exec failed half way or whose stack could not grow is not, and can only be ended. */
  datatype Proc = Proc(brk: int, lowest: int, laidOut: bool)

  /** NUM_PAGES_REG_1, NUM_KERNEL_PAGES and the number of physical frames. */
  datatype Config = Config(pages: nat, stackPages: nat, frames: nat)

  /** `current` is the process whose table REG_PTBR1 names. */
  datatype Mem = Mem(queue: seq<nat>, tables: Tables, procs: map<nat, Proc>, current: nat, nextPid: nat)

  /** Spawn is NewBlankPCBWithPageTables with its table put into REG_PTBR1, as KernelStart does for init. */
  datatype Op =
    | Fork
    | Spawn
    | Exec(text: nat, data: nat, stack: nat)
    | SetBrk(page: nat)
    | Fault(page: nat)
    | Exit(next: nat)
    | Switch(next: nat)

  ghost predicate Shape(m: Mem, k: Config) {
    k.pages >= 2 && k.stackPages >= 2 && m.current in m.procs
    && (forall p | p in m.procs ::
      p < m.nextPid && UserSpace(p) in m.tables && KernelStack(p) in m.tables
      && |m.tables[UserSpace(p)]| == k.pages && |m.tables[KernelStack(p)]| == k.stackPages)
    && (forall o | o in m.tables :: !o.KernelHeap? ==> o.pid in m.procs)
  }

  ghost function SpaceAt(m: Mem, p: nat): Space
    requires p in m.procs && UserSpace(p) in m.tables
  {
    Space(m.tables[UserSpace(p)], m.procs[p].brk, m.procs[p].lowest)
  }

  ghost predicate Stacked(t: seq<Pte>) {
    forall i | 0 <= i < |t| :: t[i].valid && t[i].prot == READ_WRITE
  }

  ghost predicate Inv(m: Mem, k: Config) {
    Shape(m, k) && Sound(m.tables, m.queue, k.frames)
    && forall p | p in m.procs ::
      Stacked(m.tables[KernelStack(p)]) && Readable(m.tables[UserSpace(p)])
      && (m.procs[p].laidOut ==> Layout(SpaceAt(m, p)))
  }

  ghost function WithSpace(m: Mem, c: Change, laidOut: bool): Mem {
    m.(queue := c.queue, tables := m.tables[UserSpace(m.current) := c.space.t],
       procs := m.procs[m.current := Proc(c.space.brk, c.space.lowest, laidOut)])
  }

  /** The frames a fork of the current process needs for its pages. */
  ghost function PagesToCopy(m: Mem, k: Config): nat
    requires Shape(m, k)
  {
    |ValidPfns(m.tables[UserSpace(m.current)])|
  }

  /** The fork that loses frames: the child's kernel stack fits, its pages do not. */
  ghost predicate Leaks(m: Mem, k: Config, op: Op)
    requires Shape(m, k)
  {
    op.Fork? && k.stackPages <= |m.queue| && !CanFork(SpaceAt(m, m.current), m.queue, k.stackPages)
  }

  ghost function ForkNext(m: Mem, k: Config): Mem
    requires Shape(m, k)
  {
    var child, q, s := m.nextPid, m.queue, SpaceAt(m, m.current);
    var named := m.(nextPid := m.nextPid + 1, queue := ForkQueue(s, q, k.stackPages));
    if !CanFork(s, q, k.stackPages) then named
    else
      var space := ChildSpace(s, q, k.stackPages);
      named.(tables := m.tables[KernelStack(child) := StackTable(q[..k.stackPages])][UserSpace(child) := space.t],
             procs := m.procs[child := Proc(space.brk, space.lowest, m.procs[m.current].laidOut)], current := child)
  }

  ghost function BlankTable(n: nat): (t: seq<Pte>)
    ensures |t| == n && forall i | 0 <= i < n :: t[i] == BLANK_PTE
  {
    seq(n, _ => BLANK_PTE)
  }

  ghost function SpawnNext(m: Mem, k: Config): Mem {
    var child, q := m.nextPid, m.queue;
    var named := m.(nextPid := m.nextPid + 1);
    if |q| < k.stackPages then named
    else named.(
      queue := q[k.stackPages..],
      tables := m.tables[KernelStack(child) := StackTable(q[..k.stackPages])][UserSpace(child) := BlankTable(k.pages)],
      procs := m.procs[child := Proc(0, 0, false)], current := child)
  }

  ghost function ExitNext(m: Mem, k: Config, next: nat): Mem
    requires Shape(m, k)
  {
    var p := m.current;
    m.(queue := ExitQueue(m.queue, m.tables[UserSpace(p)], m.tables[KernelStack(p)]),
       tables := m.tables - {UserSpace(p), KernelStack(p)}, procs := m.procs - {p}, current := next)
  }

  /** Brk and stack growth assume a laid out process; a switch goes to another process. */
  ghost predicate Enabled(m: Mem, op: Op)
    requires m.current in m.procs
  {
    match op
    case Fork => true
    case Spawn => true
    case Exec(_, _, _) => true
    case SetBrk(_) => m.procs[m.current].laidOut
    case Fault(page) =>
      m.procs[m.current].laidOut && m.procs[m.current].brk < page < m.procs[m.current].lowest
    case Exit(next) => next in m.procs && next != m.current
    case Switch(next) => next in m.procs
  }

  ghost function Next(m: Mem, k: Config, op: Op): Mem
    requires Inv(m, k) && Enabled(m, op)
  {
    var s := SpaceAt(m, m.current);
    match op
    case Fork => ForkNext(m, k)
    case Spawn => SpawnNext(m, k)
    case Exec(text, data, stack) =>
      var c := Load(s, m.queue, text, data, stack);
      WithSpace(m, c, c.ok || (c == Change(s, m.queue, false) && m.procs[m.current].laidOut))
    case SetBrk(page) => WithSpace(m, Brk(s, m.queue, page), true)
    case Fault(page) =>
      var c := Grow(s, m.queue, s.lowest - 1, page);
      WithSpace(m, c, c.ok)
    case Exit(next) => ExitNext(m, k, next)
    case Switch(next) => m.(current := next)
  }

  /** Adding a table on the oldest free frames for an owner that had none. */
  lemma AdoptKeeps(tb: Tables, q: seq<nat>, frames: nat, o: Owner, t: seq<Pte>, n: nat)
    requires Sound(tb, q, frames) && o !in tb && n <= |q| && ValidPfns(t) == q[..n]
    ensures Keeps(tb, q, tb[o := t], q[n..], frames)
  {
    var blank := Cleared(t, 0, |t|);
    var mid := tb[o := blank];
    assert forall u, i, f :: Owns(mid, u, i, f) <==> Owns(tb, u, i, f);
    assert Keeps(tb, q, mid, q, frames);
    forall i | 0 <= i < |t| && t[i].valid ensures t[i].pfn in q[..n] {
      ValidPfnsAt(t, i);
    }
    forall i, j | 0 <= i < j < |t| && t[i].valid && t[j].valid ensures t[i].pfn != t[j].pfn {
      ValidPfnsOrder(t, i, j);
      ValidPfnsAt(t, i);
      ValidPfnsAt(t, j);
    }
    forall k | 0 <= k < n
      ensures Placed(mid[o], t, q[k])
    {
      var i := ValidPfnsMember(t, k);
      assert t[i].pfn == q[..n][k] && NewlyMaps(mid[o], t, i, q[k]);
    }
    TakeKeeps(mid, q, frames, o, t, n);
    assert mid[o := t] == tb[o := t];
    KeepsTrans(tb, q, mid, q, tb[o := t], q[n..], frames);
  }

  /** The frames of the child's table are the head of the queue. */
  lemma {:induction false} ChildTablePfns(s: seq<Pte>, q: seq<nat>)
    requires |ValidPfns(s)| <= |q|
    ensures ValidPfns(ChildTable(s, q)) == q[..|ValidPfns(s)|]
  {
    if s == [] {
      assert ChildTable(s, q) == [];
    } else {
      var n := |s| - 1;
      ValidPfnsPrefix(s, n);
      var d, d' := ChildTable(s, q), ChildTable(s[..n], q);
      forall i | 0 <= i < n ensures s[..n][..i] == s[..i] {
      }
      assert d[..n] == d';
      ChildTablePfns(s[..n], q);
    }
  }

  lemma ForkKeeps(m: Mem, k: Config)
    requires Inv(m, k) && k.stackPages + PagesToCopy(m, k) <= |m.queue|
    ensures Keeps(m.tables, m.queue, ForkNext(m, k).tables, ForkNext(m, k).queue, k.frames)
  {
    var q, s, child, n := m.queue, SpaceAt(m, m.current), m.nextPid, PagesToCopy(m, k);
    var stack, t := StackTable(q[..k.stackPages]), ChildTable(s.t, q[k.stackPages..]);
    var one := m.tables[KernelStack(child) := stack];
    assert child !in m.procs;
    ValidPfnsAll(stack);
    assert ValidPfns(stack) == q[..k.stackPages];
    AdoptKeeps(m.tables, q, k.frames, KernelStack(child), stack, k.stackPages);
    ChildTablePfns(s.t, q[k.stackPages..]);
    AdoptKeeps(one, q[k.stackPages..], k.frames, UserSpace(child), t, n);
    assert q[k.stackPages..][n..] == q[k.stackPages + n..];
    KeepsTrans(m.tables, q, one, q[k.stackPages..], one[UserSpace(child) := t], q[k.stackPages + n..], k.frames);
  }

  lemma SpawnKeeps(m: Mem, k: Config)
    requires Inv(m, k) && k.stackPages <= |m.queue|
    ensures Keeps(m.tables, m.queue, SpawnNext(m, k).tables, SpawnNext(m, k).queue, k.frames)
  {
    var q, child := m.queue, m.nextPid;
    var stack, t := StackTable(q[..k.stackPages]), BlankTable(k.pages);
    var one := m.tables[KernelStack(child) := stack];
    assert child !in m.procs;
    ValidPfnsAll(stack);
    assert ValidPfns(stack) == q[..k.stackPages];
    AdoptKeeps(m.tables, q, k.frames, KernelStack(child), stack, k.stackPages);
    ValidPfnsNone(t);
    AdoptKeeps(one, q[k.stackPages..], k.frames, UserSpace(child), t, 0);
    assert q[k.stackPages..][0..] == q[k.stackPages..];
    KeepsTrans(m.tables, q, one, q[k.stackPages..], one[UserSpace(child) := t], q[k.stackPages..], k.frames);
  }

  lemma SpawnKeepsInv(m: Mem, k: Config)
    requires Inv(m, k)
    ensures Inv(SpawnNext(m, k), k)
  {
    assert m.nextPid !in m.procs;
    if k.stackPages <= |m.queue| {
      SpawnKeeps(m, k);
      AddedInv(m, k, SpawnNext(m, k), StackTable(m.queue[..k.stackPages]), Space(BlankTable(k.pages), 0, 0), false);
    }
  }

  lemma ExitKeeps(m: Mem, k: Config, next: nat)
    requires Inv(m, k) && next in m.procs && next != m.current
    ensures Keeps(m.tables, m.queue, ExitNext(m, k, next).tables, ExitNext(m, k, next).queue, k.frames)
  {
    var p, q := m.current, m.queue;
    var user, stack := m.tables[UserSpace(p)], m.tables[KernelStack(p)];
    var one := m.tables[UserSpace(p) := Cleared(user, 0, |user|)];
    var two := one[KernelStack(p) := Cleared(stack, 0, |stack|)];
    assert user[0..|user|] == user && stack[0..|stack|] == stack;
    UnmapKeeps(m.tables, q, k.frames, UserSpace(p), Space(user, 0, 0), 0, |user|);
    UnmapKeeps(one, q + ValidPfns(user), k.frames, KernelStack(p), Space(stack, 0, 0), 0, |stack|);
    var q' := q + ValidPfns(user) + ValidPfns(stack);
    KeepsTrans(m.tables, q, one, q + ValidPfns(user), two, q', k.frames);
    var tb' := ExitNext(m, k, next).tables;
    assert forall o, i, f :: Owns(tb', o, i, f) <==> Owns(two, o, i, f);
  }

  /** Every step keeps the invariant, in particular that no frame has two owners. */
  lemma StepKeepsInv(m: Mem, k: Config, op: Op)
    requires Inv(m, k) && Enabled(m, op)
    ensures Inv(Next(m, k, op), k)
  {
    var s, o := SpaceAt(m, m.current), UserSpace(m.current);
    match op
    case Fork =>
      ForkKeepsInv(m, k);
    case Spawn =>
      SpawnKeepsInv(m, k);
    case Exec(text, data, stack) =>
      LoadKeeps(m.tables, m.queue, k.frames, o, s, text, data, stack);
      LoadMakesLayout(s, m.queue, text, data, stack);
      WithSpaceKeepsInv(m, k, Load(s, m.queue, text, data, stack), Next(m, k, op).procs[m.current].laidOut);
    case SetBrk(page) =>
      BrkKeeps(m.tables, m.queue, k.frames, o, s, page);
      BrkKeepsLayout(s, m.queue, page);
      WithSpaceKeepsInv(m, k, Brk(s, m.queue, page), true);
    case Fault(page) =>
      GrowKeeps(m.tables, m.queue, k.frames, o, s, s.lowest - 1, page);
      GrowKeepsLayout(s, m.queue, s.lowest - 1, page);
      WithSpaceKeepsInv(m, k, Grow(s, m.queue, s.lowest - 1, page), Grow(s, m.queue, s.lowest - 1, page).ok);
    case Exit(next) =>
      ExitKeepsInv(m, k, next);
    case Switch(next) =>
  }

  lemma WithSpaceKeepsInv(m: Mem, k: Config, c: Change, laidOut: bool)
    requires Inv(m, k) && Sound(m.tables[UserSpace(m.current) := c.space.t], c.queue, k.frames)
    requires |c.space.t| == k.pages && Readable(c.space.t) && (laidOut ==> Layout(c.space))
    ensures Inv(WithSpace(m, c, laidOut), k)
  {
  }

  lemma ForkKeepsInv(m: Mem, k: Config)
    requires Inv(m, k)
    ensures Inv(ForkNext(m, k), k)
  {
    assert m.nextPid !in m.procs;
    if k.stackPages + PagesToCopy(m, k) <= |m.queue| {
      ForkKeeps(m, k);
      var s := SpaceAt(m, m.current);
      assert m.procs[m.current].laidOut ==> Layout(s);
      AddedInv(m, k, ForkNext(m, k), StackTable(m.queue[..k.stackPages]), ChildSpace(s, m.queue, k.stackPages),
               m.procs[m.current].laidOut);
    } else if k.stackPages <= |m.queue| {
      SuffixSound(m.tables, m.queue, k.frames, k.stackPages);
    }
  }

  lemma SuffixSound(tb: Tables, q: seq<nat>, frames: nat, n: nat)
    requires Sound(tb, q, frames) && n <= |q|
    ensures Sound(tb, q[n..], frames)
  {
    assert forall f | f in q[n..] :: f in q;
  }

  /** A new process with its own tables is current. */
  lemma AddedInv(m: Mem, k: Config, f: Mem, stack: seq<Pte>, space: Space, laidOut: bool)
    requires Inv(m, k) && Sound(f.tables, f.queue, k.frames)
    requires |stack| == k.stackPages && |space.t| == k.pages && Stacked(stack) && Readable(space.t)
    requires laidOut ==> Layout(space)
    requires var child := m.nextPid;
      f == Mem(f.queue, m.tables[KernelStack(child) := stack][UserSpace(child) := space.t],
               m.procs[child := Proc(space.brk, space.lowest, laidOut)], child, child + 1)
    ensures Inv(f, k)
  {
    assert m.nextPid !in m.procs;
    forall p | p in m.procs
      ensures f.tables[KernelStack(p)] == m.tables[KernelStack(p)] && f.tables[UserSpace(p)] == m.tables[UserSpace(p)]
      ensures m.procs[p].laidOut ==> Layout(SpaceAt(m, p))
    {
    }
  }

  lemma ExitKeepsInv(m: Mem, k: Config, next: nat)
    requires Inv(m, k) && next in m.procs && next != m.current
    ensures Inv(ExitNext(m, k, next), k)
  {
    ExitKeeps(m, k, next);
  }

  /** The state after running `ops`, which stops at the first step that is not enabled. */
  ghost function Run(m: Mem, k: Config, ops: seq<Op>): (r: Mem)
    requires Inv(m, k)
    ensures Inv(r, k)
    decreases |ops|
  {
    if ops == [] || !Enabled(m, ops[0]) then m
    else
      StepKeepsInv(m, k, ops[0]);
      Run(Next(m, k, ops[0]), k, ops[1..])
  }

  /** In every reachable state a frame has at most one owner. */
  lemma OneOwner(m: Mem, k: Config, ops: seq<Op>, f: int, o: Owner, i: int, o': Owner, i': int)
    requires Inv(m, k) && Owns(Run(m, k, ops).tables, o, i, f)
    ensures f !in Run(m, k, ops).queue
    ensures Owns(Run(m, k, ops).tables, o', i', f) ==> o == o' && i == i'
  {
  }

  /** A step keeps every frame either free or owned, unless it is the fork that fails after
      allotting the kernel stack: that one loses exactly the stack frames. */
  lemma StepConserves(m: Mem, k: Config, op: Op)
    requires Inv(m, k) && Enabled(m, op)
    ensures var m' := Next(m, k, op);
      (Conserves(m.tables, m.queue, m'.tables, m'.queue) <==> !Leaks(m, k, op))
      && (Leaks(m, k, op) ==> m'.tables == m.tables && m.queue == m.queue[..k.stackPages] + m'.queue)
  {
    var s, o := SpaceAt(m, m.current), UserSpace(m.current);
    match op
    case Fork =>
      if k.stackPages + PagesToCopy(m, k) <= |m.queue| {
        ForkKeeps(m, k);
      } else if k.stackPages <= |m.queue| {
        var f := m.queue[0];
        assert m.queue == m.queue[..k.stackPages] + m.queue[k.stackPages..];
        assert f in m.queue && f !in m.queue[k.stackPages..] && !Owned(m.tables, f);
      }
    case Spawn =>
      if k.stackPages <= |m.queue| {
        SpawnKeeps(m, k);
      }
    case Exec(text, data, stack) => LoadKeeps(m.tables, m.queue, k.frames, o, s, text, data, stack);
    case SetBrk(page) => BrkKeeps(m.tables, m.queue, k.frames, o, s, page);
    case Fault(page) => GrowKeeps(m.tables, m.queue, k.frames, o, s, s.lowest - 1, page);
    case Exit(next) => ExitKeeps(m, k, next);
    case Switch(next) =>
  }

  /** The asserts in the page loops of brk and stack growth do not fire in a reachable state: the pages
      between the break and the stack, which both map, are blank entries of the table, and the pages
      below the break, which brk unmaps, are valid ones. */
  lemma PagesReady(m: Mem, k: Config)
    requires Inv(m, k)
    ensures var t, p := m.tables[UserSpace(m.current)], m.procs[m.current];
      p.laidOut ==>
        0 <= p.brk < p.lowest <= k.pages == |t|
        && (forall page | p.brk <= page < p.lowest :: !t[page].valid)
        && (forall page | 0 <= page < p.brk || p.lowest <= page < k.pages :: t[page].valid)
  {
    assert m.procs[m.current].laidOut ==> Layout(SpaceAt(m, m.current));
  }

  /** Frames of different owners differ. */
  lemma OwnersApart(m: Mem, k: Config, o: Owner, o': Owner, i: int)
    requires Inv(m, k) && o in m.tables && o' in m.tables && o != o' && 0 <= i < |m.tables[o]| && m.tables[o][i].valid
    ensures m.tables[o][i].pfn !in ValidPfns(m.tables[o'])
  {
    var t, t' := m.tables[o], m.tables[o'];
    forall j | 0 <= j < |ValidPfns(t')| ensures ValidPfns(t')[j] != t[i].pfn {
      var l := ValidPfnsMember(t', j);
      assert Owns(m.tables, o', l, t'[l].pfn) && Owns(m.tables, o, i, t[i].pfn);
    }
  }

  /** In a reachable state the requirements of the kernel calls that copy, release or switch hold for the
      current process. */
  lemma CallsAllowed(m: Mem, k: Config, next: nat)
    requires Inv(m, k) && next in m.procs
    ensures var t, stack := m.tables[UserSpace(m.current)], m.tables[KernelStack(m.current)];
      Private(t, m.queue, k.frames) && Readable(t)
      && Private(stack, m.queue + ValidPfns(t), k.frames)
      && (next != m.current ==>
        var to := m.tables[KernelStack(next)];
        Paired(stack, to, ValidPfns(to), k.frames) && Distinct(ValidPfns(to) + m.queue))
  {
    var p := m.current;
    var stack := m.tables[KernelStack(p)];
    SoundPrivate(m.tables, m.queue, k.frames, UserSpace(p));
    SoundPrivate(m.tables, m.queue, k.frames, KernelStack(p));
    forall i | 0 <= i < |stack| ensures stack[i].pfn !in ValidPfns(m.tables[UserSpace(p)]) {
      OwnersApart(m, k, KernelStack(p), UserSpace(p), i);
    }
    if next != p {
      StackPairs(m, k, next);
    }
  }

  lemma StackPairs(m: Mem, k: Config, next: nat)
    requires Inv(m, k) && next in m.procs && next != m.current
    ensures var stack, to := m.tables[KernelStack(m.current)], m.tables[KernelStack(next)];
      Paired(stack, to, ValidPfns(to), k.frames) && Distinct(ValidPfns(to) + m.queue)
  {
    var stack, to := m.tables[KernelStack(m.current)], m.tables[KernelStack(next)];
    SoundPrivate(m.tables, m.queue, k.frames, KernelStack(m.current));
    SoundPrivate(m.tables, m.queue, k.frames, KernelStack(next));
    ValidPfnsAll(to);
    forall i | 0 <= i < |stack| ensures stack[i].pfn !in ValidPfns(to) {
      OwnersApart(m, k, KernelStack(m.current), KernelStack(next), i);
    }
    forall j | 0 <= j < |to| ensures to[j].pfn in ValidPfns(to) {
      assert ValidPfns(to)[j] == to[j].pfn;
    }
  }

  /** The state KernelStart builds: page numbers equal frame numbers for the kernel and its
      stack, the idle process has no user pages, and the rest of memory is free, except
      the frame at KERNEL_STACK_LIMIT. */
  ghost function Boot(k: Config, brkPage: nat, limitPage: nat, maxFrame: nat): Mem
    requires brkPage + k.stackPages < limitPage <= k.frames
  {
    var base := limitPage - k.stackPages;
    Mem(Range(brkPage, base) + Range(limitPage + 1, maxFrame + 1),
        map[KernelHeap := StackTable(Range(0, brkPage)),
            KernelStack(0) := StackTable(Range(base, limitPage)),
            UserSpace(0) := BlankTable(k.pages)],
        map[0 := Proc(0, 0, false)], 0, 1)
  }

  lemma IdentityOwns(tb: Tables, o: Owner, lo: nat, hi: nat)
    requires lo <= hi && o in tb && tb[o] == StackTable(Range(lo, hi))
    ensures forall i, f :: Owns(tb, o, i, f) <==> lo <= f < hi && i == f - lo
  {
  }

  lemma BootSound(k: Config, brkPage: nat, limitPage: nat, maxFrame: nat)
    requires k.pages >= 2 && k.stackPages >= 2 && brkPage + k.stackPages < limitPage <= k.frames && maxFrame < k.frames
    ensures var m := Boot(k, brkPage, limitPage, maxFrame);
      Inv(m, k) && limitPage !in m.queue && !Owned(m.tables, limitPage)
  {
    var m, base := Boot(k, brkPage, limitPage, maxFrame), limitPage - k.stackPages;
    IdentityOwns(m.tables, KernelHeap, 0, brkPage);
    IdentityOwns(m.tables, KernelStack(0), base, limitPage);
    forall o, i, f | Owns(m.tables, o, i, f)
      ensures (o == KernelHeap && 0 <= f < brkPage && i == f) || (o == KernelStack(0) && base <= f < limitPage && i == f - base)
    {
      assert o != UserSpace(0);
    }
    assert forall f | f in m.queue :: brkPage <= f < base || limitPage < f <= maxFrame;
  }

  // ---- the start of the kernel ----

  lemma RunStep(m: Mem, k: Config, op: Op, ops: seq<Op>)
    requires Inv(m, k) && Enabled(m, op)
    ensures Inv(Next(m, k, op), k) && Run(m, k, [op] + ops) == Run(Next(m, k, op), k, ops)
  {
    StepKeepsInv(m, k, op);
    assert ([op] + ops)[1..] == ops;
  }

  /** The frames of a laid out process are those of its heap and its stack. */
  lemma {:induction false} LayoutPages(t: seq<Pte>, brk: nat, lowest: nat, n: nat)
    requires n <= |t| && brk <= lowest <= |t| && forall i | 0 <= i < |t| :: t[i].valid <==> i < brk || lowest <= i
    ensures |ValidPfns(t[..n])| == (if n < brk then n else brk) + (if n < lowest then 0 else n - lowest)
  {
    if n > 0 {
      LayoutPages(t, brk, lowest, n - 1);
      ValidPfnsStep(t, n - 1);
    } else {
      assert t[..0] == [];
    }
  }

  /** A program of `n` pages that fits is loaded, whatever the process had mapped. */
  lemma ExecTakes(m: Mem, k: Config, text: nat, data: nat, stack: nat)
    requires Inv(m, k) && text + data + stack < k.pages && text + data + stack <= |m.queue| + PagesToCopy(m, k)
    ensures var m', n := Next(m, k, Exec(text, data, stack)), text + data + stack;
      Inv(m', k) && |m'.queue| == |m.queue| + PagesToCopy(m, k) - n && PagesToCopy(m', k) == n
      && m'.current == m.current && m'.nextPid == m.nextPid && m'.procs.Keys == m.procs.Keys
      && m'.procs[m.current].laidOut && forall p | p in m.procs && p != m.current :: m'.procs[p] == m.procs[p]
  {
    var s := SpaceAt(m, m.current);
    var c := Load(s, m.queue, text, data, stack);
    StepKeepsInv(m, k, Exec(text, data, stack));
    LoadMakesLayout(s, m.queue, text, data, stack);
    LayoutPages(c.space.t, c.space.brk, c.space.lowest, |c.space.t|);
    assert c.space.t[..|c.space.t|] == c.space.t;
  }

  lemma SpawnTakes(m: Mem, k: Config)
    requires Inv(m, k) && |m.queue| >= k.stackPages
    ensures var m' := Next(m, k, Spawn);
      Inv(m', k) && |m'.queue| == |m.queue| - k.stackPages && PagesToCopy(m', k) == 0
      && m'.current == m.nextPid && m.nextPid !in m.procs && m'.procs.Keys == m.procs.Keys + {m.nextPid}
      && forall p | p in m.procs :: m'.procs[p] == m.procs[p]
  {
    StepKeepsInv(m, k, Spawn);
    ValidPfnsNone(BlankTable(k.pages));
  }

  /** The program of idle is loaded, init is made, and its program is loaded. */
  ghost function Loading(idle: (nat, nat, nat), init: (nat, nat, nat)): seq<Op> {
    [Exec(idle.0, idle.1, idle.2)] + ([Spawn] + [Exec(init.0, init.1, init.2)])
  }

  ghost function Size(program: (nat, nat, nat)): nat {
    program.0 + program.1 + program.2
  }

  lemma LoadInit(m: Mem, k: Config, init: (nat, nat, nat))
    requires Inv(m, k) && Size(init) < k.pages && k.stackPages + Size(init) <= |m.queue|
    ensures var r := Run(m, k, [Spawn] + [Exec(init.0, init.1, init.2)]);
      |r.queue| == |m.queue| - k.stackPages - Size(init) && PagesToCopy(r, k) == Size(init) && r.current == m.nextPid
      && r.procs.Keys == m.procs.Keys + {m.nextPid} && r.procs[m.nextPid].laidOut
      && m.nextPid !in m.procs && forall p | p in m.procs :: r.procs[p] == m.procs[p]
  {
    SpawnTakes(m, k);
    RunStep(m, k, Spawn, [Exec(init.0, init.1, init.2)]);
    LoadLast(Next(m, k, Spawn), k, init);
  }

  lemma LoadLast(m: Mem, k: Config, init: (nat, nat, nat))
    requires Inv(m, k) && Size(init) < k.pages && Size(init) <= |m.queue| + PagesToCopy(m, k)
    ensures var r := Run(m, k, [Exec(init.0, init.1, init.2)]);
      |r.queue| == |m.queue| + PagesToCopy(m, k) - Size(init) && PagesToCopy(r, k) == Size(init) && r.current == m.current
      && r.procs.Keys == m.procs.Keys && r.procs[m.current].laidOut
      && forall p | p in m.procs && p != m.current :: r.procs[p] == m.procs[p]
  {
    var e := Exec(init.0, init.1, init.2);
    ExecTakes(m, k, init.0, init.1, init.2);
    RunStep(m, k, e, []);
    assert [e] + [] == [e];
  }

  lemma LoadBoth(m: Mem, k: Config, idle: (nat, nat, nat), init: (nat, nat, nat))
    requires Inv(m, k) && m.procs.Keys == {0} && m.current == 0 && m.nextPid == 1 && PagesToCopy(m, k) == 0
    requires Size(idle) < k.pages && Size(init) < k.pages && Size(idle) + k.stackPages + Size(init) <= |m.queue|
    ensures var r := Run(m, k, Loading(idle, init));
      r.procs.Keys == {0, 1} && r.procs[0].laidOut && r.procs[1].laidOut && r.current == 1
      && PagesToCopy(r, k) == Size(init) && |r.queue| == |m.queue| - Size(idle) - k.stackPages - Size(init)
  {
    var e := Exec(idle.0, idle.1, idle.2);
    ExecTakes(m, k, idle.0, idle.1, idle.2);
    RunStep(m, k, e, [Spawn] + [Exec(init.0, init.1, init.2)]);
    LoadInit(Next(m, k, e), k, init);
  }

  /** KernelStart, if its frames suffice: idle and init have their programs and their kernel stacks, no
      frame has two owners, and the frames that are left are free. */
  lemma KernelStarts(k: Config, brkPage: nat, limitPage: nat, maxFrame: nat, idle: (nat, nat, nat), init: (nat, nat, nat))
    requires k.pages >= 2 && k.stackPages >= 2 && brkPage + k.stackPages < limitPage <= k.frames && maxFrame < k.frames
    requires Size(idle) < k.pages && Size(init) < k.pages
    requires Size(idle) + k.stackPages + Size(init) <= |Boot(k, brkPage, limitPage, maxFrame).queue|
    ensures var m := Boot(k, brkPage, limitPage, maxFrame);
      Inv(m, k)
      && var r := Run(m, k, Loading(idle, init));
        Inv(r, k) && r.procs.Keys == {0, 1} && r.procs[0].laidOut && r.procs[1].laidOut && r.current == 1
        && PagesToCopy(r, k) == Size(init) && |r.queue| == |m.queue| - Size(idle) - k.stackPages - Size(init)
  {
    var m := Boot(k, brkPage, limitPage, maxFrame);
    BootSound(k, brkPage, limitPage, maxFrame);
    ValidPfnsNone(BlankTable(k.pages));
    LoadBoth(m, k, idle, init);
  }

  // ---- frames that a run loses ----

  /** A machine with nine free frames, on which idle and init have a page of text and a page of stack. Three
      frames are left: enough for the kernel stack of a child of init and not for its pages. */
  const SMALL := Config(3, 2, 13)

  ghost function Started(): (m: Mem)
    ensures Inv(m, SMALL)
  {
    BootSound(SMALL, 1, 12, 12);
    Run(Boot(SMALL, 1, 12, 12), SMALL, Loading((1, 0, 1), (1, 0, 1)))
  }

  /** A fork by init in that state fails and loses the two frames of the child's kernel stack: they are
      then neither free nor owned. */
  lemma ForkLoses()
    ensures var m := Started(); var m' := Next(m, SMALL, Fork);
      Leaks(m, SMALL, Fork) && m'.tables == m.tables && m'.procs == m.procs && |m.queue| == 3 && m'.queue == m.queue[2..]
      && forall f | f in m.queue[..2] :: f !in m'.queue && !Owned(m'.tables, f)
  {
    KernelStarts(SMALL, 1, 12, 12, (1, 0, 1), (1, 0, 1));
    LostFrames(Started(), SMALL);
  }

  lemma LostFrames(m: Mem, k: Config)
    requires Inv(m, k) && Leaks(m, k, Fork)
    ensures var m' := Next(m, k, Fork);
      m'.tables == m.tables && m'.procs == m.procs && m'.queue == m.queue[k.stackPages..]
      && forall f | f in m.queue[..k.stackPages] :: f !in m'.queue && !Owned(m'.tables, f)
  {
    var q := m.queue;
    assert q == q[..k.stackPages] + q[k.stackPages..];
    forall f | f in q[..k.stackPages] ensures f !in q[k.stackPages..] && !Owned(m.tables, f) {
      assert f in q;
    }
  }
}
