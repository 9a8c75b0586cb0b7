/** The free-frame list, kept inside the free frames themselves. Word 0 of a free
    frame names the next free frame, word 1 the previous one. To reach them the
    kernel briefly maps the frame at page 0 of whatever table REG_PTBR1 names. */
module PMem {
  import opened Hardware

  /** Keeps the invariant of the free list folded: a proof that needs to look inside
      `FrameList.Valid` mentions `Look(0)`. */
  ghost predicate Look(k: nat) {
    true
  }

  ghost predicate Distinct(q: seq<nat>) {
    forall i, j | 0 <= i < j < |q| :: q[i] != q[j]
  }

  ghost predicate Below(q: seq<nat>, n: nat) {
    forall i | 0 <= i < |q| :: q[i] < n
  }

  /** Frames lo, lo+1, ..., hi-1. */
  function Range(lo: nat, hi: int): (r: seq<nat>)
    ensures |r| == if lo <= hi then hi - lo else 0
    ensures forall i | 0 <= i < |r| :: r[i] == lo + i
    decreases hi - lo
  {
    if lo < hi then [lo] + Range(lo + 1, hi) else []
  }

  lemma RangeStep(lo: nat, hi: nat)
    requires lo <= hi
    ensures Range(lo, hi + 1) == Range(lo, hi) + [hi]
  {
  }

  /** Memory after word 0 of `a` is set to `next` and word 1 to `prev`; a negative value writes nothing. */
  ghost function SetLinks(ram: seq<Frame>, a: nat, next: int, prev: int): seq<Frame>
    requires a < |ram| && next < MAX_FRAMES && prev < MAX_FRAMES
  {
    var f0: Frame := if next >= 0 then ram[a][0 := next] else ram[a];
    var f1: Frame := if prev >= 0 then f0[1 := prev] else f0;
    ram[a := f1]
  }

  /** The words stored in the frames of `q` spell out `q` forwards and backwards. */
  ghost predicate Linked(ram: seq<Frame>, q: seq<nat>)
    requires Below(q, |ram|)
  {
    forall i | 0 < i < |q| :: ram[q[i - 1]][0] == q[i] && ram[q[i]][1] == q[i - 1]
  }

  /** Every frame outside `q` has the same contents in both memories. */
  ghost predicate Untouched(was: seq<Frame>, now: seq<Frame>, q: seq<nat>) {
    |was| == |now| && forall f: nat | f < |was| && f !in q :: now[f] == was[f]
  }

  lemma UntouchedTrans(a: seq<Frame>, b: seq<Frame>, c: seq<Frame>, q: seq<nat>, r: seq<nat>)
    requires Untouched(a, b, q) && Untouched(b, c, r) && q <= r
    ensures Untouched(a, c, r)
  {
    assert forall f | f in q :: f in r;
  }

  /** Memory after a frame is appended behind `tail`. */
  ghost function AppendLinks(ram: seq<Frame>, tail: nat, frame: nat): seq<Frame>
    requires tail < |ram| && frame < |ram| <= MAX_FRAMES
  {
    SetLinks(SetLinks(ram, tail, frame, -1), frame, -1, tail)
  }

  lemma AppendKeepsLinks(ram: seq<Frame>, q: seq<nat>, frame: nat)
    requires |ram| <= MAX_FRAMES && Below(q, |ram|) && frame < |ram|
    requires Distinct(q) && frame !in q && Linked(ram, q) && q != []
    ensures Below(q + [frame], |ram|) && Distinct(q + [frame])
    ensures Linked(AppendLinks(ram, q[|q| - 1], frame), q + [frame])
    ensures Untouched(ram, AppendLinks(ram, q[|q| - 1], frame), q + [frame])
  {
    var p, tail := q + [frame], q[|q| - 1];
    var after := AppendLinks(ram, tail, frame);
    assert p[|q| - 1] == tail && p[|q|] == frame;
    forall i | 0 < i < |p| ensures after[p[i - 1]][0] == p[i] && after[p[i]][1] == p[i - 1] {
      assert i < |q| ==> p[i] == q[i] && p[i - 1] == q[i - 1];
    }
  }

  /** Global state of the frame allocator. */
  class FrameList {
    const m: Machine
    var head: int   // -1 if the list is empty
    var tail: int   // -1 if the list is empty
    /** The free frames, oldest first. */
    ghost var queue: seq<nat>

    ghost predicate Ends()
      reads this
    {
      if queue == [] then head == tail == -1 else head == queue[0] && tail == queue[|queue| - 1]
    }

    ghost predicate Valid()
      reads this, m, m.ram
    {
      m.Wf() && forall k: nat | Look(k) :: Good()
    }

    ghost predicate Good()
      reads this, m, m.ram
    {
      Distinct(queue) && Below(queue, m.ram.Length) && Ends() && Linked(m.ram[..], queue)
    }

    constructor (machine: Machine)
      ensures m == machine
    {
      m := machine;
    }

    /** Boot: every frame from the kernel break up to the kernel stack, then every frame
        strictly above KERNEL_STACK_LIMIT up to the last one. The frame at
        KERNEL_STACK_LIMIT itself is never handed out. */
    method InitializePhysicalMemoryManagement(kernelBrkPage: nat, stackBasePage: nat, maxFrame: nat)
      requires m.Wf() && kernelBrkPage < stackBasePage <= m.Window() && stackBasePage <= m.ram.Length
      requires maxFrame < m.ram.Length
      modifies this, m`tlb, m.ram, m.ptbr1
      ensures Valid() && queue == Range(kernelBrkPage, stackBasePage) + Range(m.Window() + 1, maxFrame + 1)
      ensures m.ptbr1[..] == old(m.ptbr1[..])
    {
      head, tail := kernelBrkPage, kernelBrkPage;
      queue := [kernelBrkPage];
      AddFrames(kernelBrkPage + 1, stackBasePage);
      AddFrames(m.Window() + 1, maxFrame + 1);
    }

    /** Appends frames lo, lo+1, ..., hi-1. */
    method AddFrames(lo: nat, hi: nat)
      requires Valid() && hi <= m.ram.Length && forall f | lo <= f < hi :: f !in queue
      modifies this, m`tlb, m.ram, m.ptbr1
      ensures Valid() && queue == old(queue) + Range(lo, hi)
      ensures m.ptbr1[..] == old(m.ptbr1[..])
    {
      var i := lo;
      while i < hi
        invariant lo <= i && (i <= hi || i == lo)
        invariant Valid() && queue == old(queue) + Range(lo, i)
        invariant m.ptbr1[..] == old(m.ptbr1[..])
      {
        RangeStep(lo, i);
        AddToLinkedList(i);
        i := i + 1;
      }
    }

    /** Maps frame `a` at the window page, stores the links, and restores the window.
        Whatever the TLB held, nothing but the links (and head or tail) changes. */
    method SetNextAndPrevFreeFrameNumbers(a: nat, next: int, prev: int)
      requires m.Wf() && a < m.ram.Length && next < MAX_FRAMES && prev < MAX_FRAMES
      modifies this`head, this`tail, m`tlb, m.ram, m.ptbr1
      ensures m.ram[..] == SetLinks(old(m.ram[..]), a, next, prev)
      ensures m.ptbr1[..] == old(m.ptbr1[..])
      ensures m.Window() !in m.tlb && Within(m.tlb, old(m.tlb))
      ensures tail == if next >= 0 && a == old(tail) then next else old(tail)
      ensures head == if prev >= 0 && a == old(head) then prev else old(head)
    {
      var aWasTail, aWasHead := a == tail, a == head;
      var table := m.ptbr1;
      var actual := table[0];
      table[0] := Pte(true, READ_WRITE, a);
      m.FlushPage(m.Window());
      if next >= 0 {
        m.Store(m.Window(), 0, next);
        if aWasTail { tail := next; }
      }
      if prev >= 0 {
        m.Store(m.Window(), 1, prev);
        if aWasHead { head := prev; }
      }
      table[0] := actual;
      m.FlushPage(m.Window());
    }

    method GetNextFreeFrameNumber(a: nat) returns (next: int)
      requires m.Wf() && a < m.ram.Length
      modifies m`tlb, m.ptbr1
      ensures next == if a == tail then -1 else m.ram[a][0]
      ensures m.ptbr1[..] == old(m.ptbr1[..])
      ensures Within(m.tlb, old(m.tlb)) && (a != tail ==> m.Window() !in m.tlb)
    {
      if a == tail {
        return -1;
      }
      var table := m.ptbr1;
      var actual := table[0];
      table[0] := Pte(true, READ_WRITE, a);
      m.FlushPage(m.Window());
      next := m.Load(m.Window(), 0);
      table[0] := actual;
      m.FlushPage(m.Window());
    }

    /** Appends a frame: the queue grows by exactly this frame at the back, and no
        word outside free frames and the frame itself is touched. */
    method AddToLinkedList(frame: nat)
      requires Valid() && frame < m.ram.Length && frame !in queue
      modifies this, m`tlb, m.ram, m.ptbr1
      ensures Valid() && queue == old(queue) + [frame]
      ensures m.ptbr1[..] == old(m.ptbr1[..])
      ensures Untouched(old(m.ram[..]), m.ram[..], queue)
      ensures Within(m.tlb, old(m.tlb)) && m.Window() !in m.tlb
    {
      assert Look(0); // look inside Valid()
      if queue != [] {
        AppendKeepsLinks(m.ram[..], queue, frame);
      }
      if head < 0 {
        head, tail := frame, frame;
      }
      var prevTail := tail;
      SetNextAndPrevFreeFrameNumbers(tail, frame, -1);
      SetNextAndPrevFreeFrameNumbers(frame, -1, prevTail);
      queue := queue + [frame];
    }

    method ReleaseUsedFrame(frame: nat)
      requires Valid() && frame < m.ram.Length && frame !in queue
      modifies this, m`tlb, m.ram, m.ptbr1
      ensures Valid() && queue == old(queue) + [frame]
      ensures m.ptbr1[..] == old(m.ptbr1[..])
      ensures Untouched(old(m.ram[..]), m.ram[..], queue)
      ensures Within(m.tlb, old(m.tlb)) && m.Window() !in m.tlb
    {
      AddToLinkedList(frame);
    }

    /** Pops the oldest free frame into the entry `table[slot]`, which may itself be
        the window entry. Fails exactly when no frame is free, and then changes nothing. */
    method GetUnusedFrame(table: array<Pte>, slot: nat) returns (ok: bool)
      requires Valid() && slot < table.Length
      modifies this, m`tlb, m.ptbr1, table
      ensures Valid() && ok == (old(queue) != [])
      ensures ok ==> queue == old(queue)[1..] && table[..] == old(table[..])[slot := old(table[slot]).(pfn := old(queue)[0])]
      ensures !ok ==> queue == [] && table[..] == old(table[..])
      ensures m.ptbr1 != table ==> m.ptbr1[..] == old(m.ptbr1[..])
      ensures Within(m.tlb, old(m.tlb))
    {
      assert Look(0); // look inside Valid()
      if head < 0 {
        return false;
      }
      table[slot] := table[slot].(pfn := head);
      if head == tail {
        head, tail := -1, -1;
        queue := [];
        return true;
      }
      assert m.ram[queue[0]][0] == queue[1];
      head := GetNextFreeFrameNumber(head);
      queue := queue[1..];
      return true;
    }
  }
}
