/** The kernel calls that change memory: fork, brk, stack growth, program loading, exit
    and context switches. Each is tied to what AddressSpace says it does. */
module Process {
  import opened Hardware
  import opened PMem
  import opened VMem
  import opened Copy
  import opened AddressSpace
  import opened PCB

  ghost function SpaceOf(p: Pcb): Space
    reads p, p.region1
  {
    Space(p.region1[..], p.userBrkPage, p.lowestUserStackPage)
  }

  /** The kernel stack window of region 0, and what the TLB holds of it, belong to `stack`. */
  ghost predicate WindowIs(m: Machine, stack: array<Pte>)
    reads m, m.ptbr0, stack
  {
    stack.Length <= m.Window() && stack != m.ptbr0
    && m.ptbr0[m.Window() - stack.Length..] == stack[..]
    && Agrees(m.tlb, m.tlb, m.Window() - stack.Length, stack[..])
  }

  /** The kernel runs on the stack of `p`; the tables of `p` are its own. */
  ghost predicate OwnWindow(m: Machine, p: Pcb)
    reads m, m.ptbr0, p, p.kstack
  {
    WindowIs(m, p.kstack) && p.region1 != m.ptbr0 && p.kstack != m.ptbr1 && p.kstack != p.region1
  }

  method KernelBrk(fl: FrameList, p: Pcb, addr: nat, regionBasePage: nat) returns (ok: bool)
    requires fl.Valid() && Layout(SpaceOf(p)) && Private(p.region1[..], fl.queue, fl.m.ram.Length)
    requires addr < U32 && regionBasePage + p.region1.Length <= U32 / PAGESIZE
    modifies fl, fl.m`tlb, fl.m.ram, fl.m.ptbr1, p.region1, p`userBrkPage
    ensures fl.Valid()
    ensures Change(SpaceOf(p), fl.queue, ok) == Brk(old(SpaceOf(p)), old(fl.queue), BrkPage(addr, regionBasePage))
    ensures Broke(old(SpaceOf(p)), old(fl.queue), PageAbove(addr, regionBasePage), SpaceOf(p), fl.queue, ok)
    ensures ok ==> addr <= (regionBasePage + p.userBrkPage) * PAGESIZE < addr + PAGESIZE
    ensures p.region1 != fl.m.ptbr1 ==> fl.m.ptbr1[..] == old(fl.m.ptbr1[..])
    ensures forall f | 0 <= f < fl.m.ram.Length && f !in old(fl.queue) && f !in fl.queue :: fl.m.ram[f] == old(fl.m.ram[f])
    ensures Within(fl.m.tlb, old(fl.m.tlb)) && (old(OwnWindow(fl.m, p)) ==> OwnWindow(fl.m, p))
  {
    var page := BrkPage(addr, regionBasePage);
    BrkOutcome(SpaceOf(p), fl.queue, addr, regionBasePage);
    if page >= p.lowestUserStackPage {
      return false;
    }
    BrkRoundsUp(addr, regionBasePage, p.lowestUserStackPage);
    ok := MoveBreak(fl, p, page);
  }

  /** KernelBrk for a page below the stack. */
  method MoveBreak(fl: FrameList, p: Pcb, page: nat) returns (ok: bool)
    requires fl.Valid() && Layout(SpaceOf(p)) && Private(p.region1[..], fl.queue, fl.m.ram.Length)
    requires page < p.lowestUserStackPage
    modifies fl, fl.m`tlb, fl.m.ram, fl.m.ptbr1, p.region1, p`userBrkPage
    ensures fl.Valid() && Change(SpaceOf(p), fl.queue, ok) == Brk(old(SpaceOf(p)), old(fl.queue), page)
    ensures p.region1 != fl.m.ptbr1 ==> fl.m.ptbr1[..] == old(fl.m.ptbr1[..])
    ensures forall f | 0 <= f < fl.m.ram.Length && f !in old(fl.queue) && f !in fl.queue :: fl.m.ram[f] == old(fl.m.ram[f])
    ensures Within(fl.m.tlb, old(fl.m.tlb))
  {
    if page > p.userBrkPage {
      var mapped := MapNewRegion1Pages(fl, p.region1, p.userBrkPage, page - p.userBrkPage, READ_WRITE);
      if !mapped {
        return false;
      }
    } else if page < p.userBrkPage {
      UnmapRegion1Pages(fl, p.region1, page, p.userBrkPage - page);
    }
    p.userBrkPage := page;
    return true;
  }

  /** What TrapMemory finds; BehindTable is the address VMEM_1_LIMIT, which passes the range check although
      no page table entry belongs to it. */
  datatype FaultResult = Grown | OutOfFrames | HeapCollision | UnmappedInStack | BadPermission | OutOfRange | BehindTable

  /** The page of region 1 that an address lies in. */
  function FaultPage(addr: nat, regionBasePage: nat): (page: nat)
    requires regionBasePage * PAGESIZE <= addr
    ensures (regionBasePage + page) * PAGESIZE <= addr < (regionBasePage + page + 1) * PAGESIZE
  {
    addr / PAGESIZE - regionBasePage
  }

  method TrapMemory(fl: FrameList, p: Pcb, addr: nat, regionBasePage: nat) returns (r: FaultResult)
    requires fl.Valid() && Layout(SpaceOf(p))
    modifies fl, fl.m`tlb, fl.m.ptbr1, p.region1, p`lowestUserStackPage
    ensures fl.Valid() && fl.m.ram[..] == old(fl.m.ram[..])
    ensures r == OutOfRange <==> addr < regionBasePage * PAGESIZE || addr > (regionBasePage + p.region1.Length) * PAGESIZE
    ensures r == BehindTable <==> addr == (regionBasePage + p.region1.Length) * PAGESIZE
    ensures r != OutOfRange && r != BehindTable ==>
      var page := FaultPage(addr, regionBasePage);
      page < p.region1.Length
      && (r == BadPermission <==> old(p.region1[..])[page].valid)
      && (r == HeapCollision <==> page == p.userBrkPage && !old(p.region1[..])[page].valid)
      && (r == Grown || r == OutOfFrames <==> p.userBrkPage < page < old(p.lowestUserStackPage))
      && (r == Grown || r == OutOfFrames ==>
            Grew(old(SpaceOf(p)), old(fl.queue), page, SpaceOf(p), fl.queue, r == Grown)
            && Change(SpaceOf(p), fl.queue, r == Grown) ==
               Grow(old(SpaceOf(p)), old(fl.queue), old(p.lowestUserStackPage) - 1, page))
    ensures r != UnmappedInStack
    ensures r != Grown && r != OutOfFrames ==> SpaceOf(p) == old(SpaceOf(p)) && fl.queue == old(fl.queue)
    ensures p.region1 != fl.m.ptbr1 ==> fl.m.ptbr1[..] == old(fl.m.ptbr1[..])
    ensures Within(fl.m.tlb, old(fl.m.tlb)) && (old(OwnWindow(fl.m, p)) ==> OwnWindow(fl.m, p))
  {
    if addr > (regionBasePage + p.region1.Length) * PAGESIZE || addr < regionBasePage * PAGESIZE {
      return OutOfRange;
    }
    var page := FaultPage(addr, regionBasePage);
    if page >= p.region1.Length {
      return BehindTable;
    }
    if p.region1[page].valid {
      return BadPermission;
    }
    var belowCurrentStack := page < p.lowestUserStackPage;
    var aboveHeap := page > p.userBrkPage;
    if belowCurrentStack && aboveHeap {
      var grown := GrowUserStack(fl, p, page);
      return if grown then Grown else OutOfFrames;
    } else if !aboveHeap {
      return HeapCollision;
    } else {
      return UnmappedInStack;
    }
  }

  /** The stack growth loop of TrapMemory. */
  method GrowUserStack(fl: FrameList, p: Pcb, page: nat) returns (ok: bool)
    requires fl.Valid() && Layout(SpaceOf(p)) && p.userBrkPage < page < p.lowestUserStackPage
    modifies fl, fl.m`tlb, fl.m.ptbr1, p.region1, p`lowestUserStackPage
    ensures fl.Valid() && fl.m.ram[..] == old(fl.m.ram[..])
    ensures Change(SpaceOf(p), fl.queue, ok) ==
      Grow(old(SpaceOf(p)), old(fl.queue), old(p.lowestUserStackPage) - 1, page)
    ensures Grew(old(SpaceOf(p)), old(fl.queue), page, SpaceOf(p), fl.queue, ok)
    ensures p.region1 != fl.m.ptbr1 ==> fl.m.ptbr1[..] == old(fl.m.ptbr1[..])
    ensures Within(fl.m.tlb, old(fl.m.tlb)) && (old(OwnWindow(fl.m, p)) ==> OwnWindow(fl.m, p))
  {
    var t := p.region1;
    ghost var goal := Grow(SpaceOf(p), fl.queue, p.lowestUserStackPage - 1, page);
    GrowResult(SpaceOf(p), fl.queue, page);
    var next := p.lowestUserStackPage - 1;
    while next >= page
      invariant page - 1 <= next < p.lowestUserStackPage == old(p.lowestUserStackPage)
      invariant fl.Valid() && fl.m.ram[..] == old(fl.m.ram[..]) && p.userBrkPage == old(p.userBrkPage)
      invariant goal == Grow(SpaceOf(p), fl.queue, next, page)
      invariant t != fl.m.ptbr1 ==> fl.m.ptbr1[..] == old(fl.m.ptbr1[..])
      invariant Within(fl.m.tlb, old(fl.m.tlb)) && forall i | page <= i <= next :: !t[i].valid
    {
      ghost var s, q := t[..], fl.queue;
      var found := fl.GetUnusedFrame(t, next);
      if !found {
        return false;
      }
      assert !t[next].valid;
      t[next] := Pte(true, READ_WRITE, t[next].pfn);
      assert t[..] == s[next := Pte(true, READ_WRITE, q[0])];
      next := next - 1;
    }
    p.lowestUserStackPage := page;
    return true;
  }

  method FreeRegion1PageTable(fl: FrameList, p: Pcb)
    requires fl.Valid() && Private(p.region1[..], fl.queue, fl.m.ram.Length)
    modifies fl, fl.m`tlb, fl.m.ram, fl.m.ptbr1, p.region1
    ensures fl.Valid()
    ensures Change(SpaceOf(p), fl.queue, true) == UnmapPages(old(SpaceOf(p)), old(fl.queue), 0, p.region1.Length)
    ensures p.region1 != fl.m.ptbr1 ==> fl.m.ptbr1[..] == old(fl.m.ptbr1[..])
    ensures Within(fl.m.tlb, old(fl.m.tlb))
  {
    assert p.region1[..p.region1.Length] == p.region1[..] && p.region1[..][0..p.region1.Length] == p.region1[..];
    FreePages(fl, p.region1, p.region1.Length);
  }

  /** KernelExit's release of memory: region 1, then the kernel stack. */
  method ReleaseMemory(fl: FrameList, p: Pcb)
    requires fl.Valid() && p.region1 != p.kstack && p.kstack != fl.m.ptbr1
    requires Private(p.region1[..], fl.queue, fl.m.ram.Length)
    requires Private(p.kstack[..], fl.queue + ValidPfns(p.region1[..]), fl.m.ram.Length)
    modifies fl, fl.m`tlb, fl.m.ram, fl.m.ptbr1, p.region1, p.kstack
    ensures fl.Valid()
    ensures fl.queue == ExitQueue(old(fl.queue), old(p.region1[..]), old(p.kstack[..]))
    ensures fl.queue == old(fl.queue) + ValidPfns(old(p.region1[..])) + ValidPfns(old(p.kstack[..]))
    ensures p.region1[..] == Cleared(old(p.region1[..]), 0, p.region1.Length)
    ensures p.kstack[..] == Cleared(old(p.kstack[..]), 0, p.kstack.Length)
  {
    assert p.region1[..][0..p.region1.Length] == p.region1[..] && p.kstack[..p.kstack.Length] == p.kstack[..];
    FreeRegion1PageTable(fl, p);
    FreePages(fl, p.kstack, p.kstack.Length);
  }

  /** LoadProgram's page table work: everything mapped is released, then text, data and
      stack are mapped, and text is made read-only once its bytes are in place. */
  method LoadPages(fl: FrameList, p: Pcb, text: nat, data: nat, stack: nat) returns (ok: bool)
    requires fl.Valid() && Private(p.region1[..], fl.queue, fl.m.ram.Length)
    modifies fl, fl.m`tlb, fl.m.ram, fl.m.ptbr1, p.region1, p`userBrkPage, p`lowestUserStackPage
    ensures fl.Valid()
    ensures Change(SpaceOf(p), fl.queue, ok) == Load(old(SpaceOf(p)), old(fl.queue), text, data, stack)
    ensures Loaded(old(SpaceOf(p)), old(fl.queue), text, data, stack, SpaceOf(p), fl.queue, ok)
    ensures ok ==> forall v | v in fl.m.tlb :: v < fl.m.Window()
    ensures p.region1 != fl.m.ptbr1 ==> fl.m.ptbr1[..] == old(fl.m.ptbr1[..])
    ensures Within(fl.m.tlb, old(fl.m.tlb)) && (old(OwnWindow(fl.m, p)) ==> OwnWindow(fl.m, p))
  {
    var t := p.region1;
    LoadResult(SpaceOf(p), fl.queue, text, data, stack);
    if stack + text + data >= t.Length {
      return false;
    }
    LoadSteps(SpaceOf(p), fl.queue, text, data, stack);
    FreeRegion1PageTable(fl, p);
    ok := MapAll(fl, p, Segments(t.Length, text, data, stack));
    if ok {
      FinishLoad(fl, p, text, data, stack);
    }
  }

  /** The successive MapNewRegion1Pages calls of LoadProgram; the first failure ends them. */
  method MapAll(fl: FrameList, p: Pcb, segments: seq<Segment>) returns (ok: bool)
    requires fl.Valid() && Mappable(p.region1[..], segments)
    modifies fl, fl.m`tlb, fl.m.ram, fl.m.ptbr1, p.region1
    ensures fl.Valid()
    ensures Change(SpaceOf(p), fl.queue, ok) == MapSegments(old(SpaceOf(p)), old(fl.queue), segments)
    ensures p.region1 != fl.m.ptbr1 ==> fl.m.ptbr1[..] == old(fl.m.ptbr1[..])
    ensures Within(fl.m.tlb, old(fl.m.tlb))
    decreases |segments|
  {
    if segments == [] {
      return true;
    }
    ghost var s, q := SpaceOf(p), fl.queue;
    assert forall i | 0 <= i < p.region1.Length :: p.region1[i] == p.region1[..][i];
    ok := MapNewRegion1Pages(fl, p.region1, segments[0].lo, segments[0].n, READ_WRITE);
    assert Change(SpaceOf(p), fl.queue, ok) == MapPages(s, q, segments[0].lo, segments[0].n, READ_WRITE);
    if ok {
      MappableStep(s, q, segments);
      ok := MapAll(fl, p, segments[1..]);
    }
  }

  /** The end of LoadProgram, once text and data have been read in. */
  method FinishLoad(fl: FrameList, p: Pcb, text: nat, data: nat, stack: nat)
    requires text <= p.region1.Length && forall i | 0 <= i < text :: p.region1[..][i].valid
    modifies fl.m`tlb, p.region1, p`userBrkPage, p`lowestUserStackPage
    ensures SpaceOf(p) == Space(Protected(old(p.region1[..]), 0, text, READ_EXEC), text + data, p.region1.Length - stack)
    ensures (forall v | v in fl.m.tlb :: v < fl.m.Window()) && Within(fl.m.tlb, old(fl.m.tlb))
  {
    fl.m.FlushRegionOne();
    assert forall i | 0 <= i < text :: p.region1[i] == p.region1[..][i];
    ChangeProtRegion1Pages(p.region1, 0, text, READ_EXEC);
    fl.m.FlushRegionOne();
    assert p.region1[..] == Protected(old(p.region1[..]), 0, text, READ_EXEC);
    p.lowestUserStackPage := p.region1.Length - stack;
    p.userBrkPage := text + data;
  }

  ghost predicate Blank(t: seq<Pte>) {
    forall i | 0 <= i < |t| :: t[i] == BLANK_PTE
  }

  /** A process with blank region 1 and freshly allocated kernel stack frames. */
  method NewBlankPCBWithPageTables(fl: FrameList, pid: nat, pages: nat, stackPages: nat, user: UserContext)
    returns (p: Pcb?)
    requires fl.Valid()
    modifies fl, fl.m`tlb, fl.m.ram, fl.m.ptbr1
    ensures fl.Valid() && (p != null <==> stackPages <= |old(fl.queue)|)
    ensures p == null ==> fl.queue == old(fl.queue) && Untouched(old(fl.m.ram[..]), fl.m.ram[..], fl.queue)
    ensures p != null ==>
      fresh(p) && fresh(p.region1) && fresh(p.kstack) && p.region1 != p.kstack
      && p.pid == pid && p.userContext == user && !p.kernelContextInitialized
      && p.region1.Length == pages && Blank(p.region1[..]) && p.kstack.Length == stackPages
      && p.kstack[..] == StackTable(old(fl.queue)[..stackPages])
      && fl.queue == old(fl.queue)[stackPages..] && fl.m.ram[..] == old(fl.m.ram[..])
    ensures fl.m.ptbr1[..] == old(fl.m.ptbr1[..]) && Within(fl.m.tlb, old(fl.m.tlb))
  {
    p := new Pcb(pid, pages, stackPages, user);
    var ok := MapNewRegion1Pages(fl, p.kstack, 0, stackPages, READ_WRITE);
    if !ok {
      p := null;
    }
  }

  /** The memory half of KernelFork. A fork fails when the kernel stack and the pages of the
      parent need more frames than are free. If the stack still fitted, its frames are
      not given back: they leave the free queue for good. */
  method ForkMemory(fl: FrameList, parent: Pcb, pid: nat, stackPages: nat, user: UserContext) returns (child: Pcb?)
    requires fl.Valid() && fl.m.ptbr1 == parent.region1 && parent.region1 != fl.m.ptbr0
    requires Private(parent.region1[..], fl.queue, fl.m.ram.Length) && Readable(parent.region1[..])
    modifies fl, fl.m`tlb, fl.m`ptbr1, fl.m.ram, parent.region1
    ensures fl.Valid() && fl.m.ptbr1 == parent.region1 && parent.region1[..] == old(parent.region1[..])
    ensures child != null <==> CanFork(old(SpaceOf(parent)), old(fl.queue), stackPages)
    ensures fl.queue == ForkQueue(old(SpaceOf(parent)), old(fl.queue), stackPages)
    ensures child != null ==>
      fresh(child) && fresh(child.region1) && fresh(child.kstack) && child.region1 != child.kstack
      && child.pid == pid && child.userContext == user && !child.kernelContextInitialized
    ensures child != null ==>
      SpaceOf(child) == ChildSpace(old(SpaceOf(parent)), old(fl.queue), stackPages)
      && child.kstack[..] == StackTable(old(fl.queue)[..stackPages])
    ensures child != null ==>
      Copied(old(fl.m.ram[..]), fl.m.ram[..], parent.region1[..], child.region1[..], 0)
    ensures Untouched(old(fl.m.ram[..]), fl.m.ram[..], old(fl.queue))
    ensures Within(fl.m.tlb, old(fl.m.tlb)) && (old(OwnWindow(fl.m, parent)) ==> OwnWindow(fl.m, parent))
  {
    ghost var q := fl.queue;
    child := NewBlankPCBWithPageTables(fl, pid, parent.region1.Length, stackPages, user);
    if child == null {
      return;
    }
    child.lowestUserStackPage := parent.lowestUserStackPage;
    child.userBrkPage := parent.userBrkPage;
    assert forall f | f in fl.queue :: f in q;
    var copied, bad := CopyRegion1PageTableAndData(fl, parent.region1, child.region1);
    if !copied {
      child := null;
    }
  }

  /** The branch of SaveKernelContextAndSwitch for a process that has never run: it gets the context
      and a copy of the kernel stack of the process being left. */
  method InitializeKernelContext(fl: FrameList, prev: Pcb, next: Pcb)
    requires fl.Valid() && WindowIs(fl.m, prev.kstack) && next != prev && next.kstack != fl.m.ptbr0
    requires Paired(prev.kstack[..], next.kstack[..], ValidPfns(next.kstack[..]), fl.m.ram.Length)
    requires Distinct(ValidPfns(next.kstack[..]) + fl.queue)
    modifies next`kernelContext, next`kernelContextInitialized, fl.m`tlb, fl.m.ram, fl.m.ptbr0
    ensures fl.Valid() && next.kernelContextInitialized && next.kernelContext == prev.kernelContext
    ensures fl.m.ptbr0[..fl.m.Window() - prev.kstack.Length] == old(fl.m.ptbr0[..fl.m.Window() - prev.kstack.Length])
    ensures Copied(old(fl.m.ram[..]), fl.m.ram[..], prev.kstack[..], next.kstack[..], 0)
    ensures Untouched(old(fl.m.ram[..]), fl.m.ram[..], ValidPfns(next.kstack[..]))
  {
    ghost var pool, ram0 := ValidPfns(next.kstack[..]), fl.m.ram[..];
    next.kernelContext := prev.kernelContext;
    CopyKernelStackPageTableAndData(fl.m, prev.kstack, next.kstack, pool);
    next.kernelContextInitialized := true;
    assert fl.Valid() by {
      assert Look(0);
      LinksSurvive(ram0, fl.m.ram[..], pool, fl.queue);
    }
  }

  /** The context of the process being left is saved, and the window becomes that of `next`. */
  method SaveKernelContextAndSwitch(fl: FrameList, current: Pcb, next: Pcb, kernel: KernelContext)
    requires fl.Valid() && current.kernelContextInitialized
    requires next.kstack.Length == current.kstack.Length <= fl.m.Window() && next.kstack != fl.m.ptbr0
    requires !next.kernelContextInitialized ==>
      WindowIs(fl.m, current.kstack) && next != current
      && Paired(current.kstack[..], next.kstack[..], ValidPfns(next.kstack[..]), fl.m.ram.Length)
      && Distinct(ValidPfns(next.kstack[..]) + fl.queue)
    modifies current`kernelContext, next`kernelContext, next`kernelContextInitialized, fl.m`tlb, fl.m.ram, fl.m.ptbr0
    ensures fl.Valid() && WindowIs(fl.m, next.kstack) && fl.m.tlb == map[] && next.kernelContextInitialized
    ensures fl.m.ptbr0[..fl.m.Window() - next.kstack.Length] == old(fl.m.ptbr0[..fl.m.Window() - next.kstack.Length])
    ensures current.kernelContext == kernel
    ensures old(next.kernelContextInitialized) ==>
      fl.m.ram[..] == old(fl.m.ram[..]) && (next != current ==> next.kernelContext == old(next.kernelContext))
    ensures !old(next.kernelContextInitialized) ==>
      next.kernelContext == kernel && Copied(old(fl.m.ram[..]), fl.m.ram[..], current.kstack[..], next.kstack[..], 0)
      && Untouched(old(fl.m.ram[..]), fl.m.ram[..], ValidPfns(next.kstack[..]))
  {
    current.kernelContext := kernel;
    if !next.kernelContextInitialized {
      InitializeKernelContext(fl, current, next);
    }
    UseKernelStackForProc(fl.m, next.kstack);
    fl.m.FlushAll();
  }

  /** SwitchToProc with SaveKernelContextAndSwitch. `user` is the trap frame of the caller and
      `kernel` its kernel context; the results are what the CPU continues with. After the
      switch REG_PTBR1, the kernel stack window and the TLB are those of `next`. The window must still be
      that of `current` only if `next` has never run, and so starts on a copy of that stack. */
  method SwitchToProc(fl: FrameList, current: Pcb, next: Pcb, user: UserContext, kernel: KernelContext)
    returns (user': UserContext, kernel': KernelContext)
    requires fl.Valid() && current.kernelContextInitialized
    requires next.kstack.Length == current.kstack.Length <= fl.m.Window() && next.kstack != fl.m.ptbr0
    requires next.region1.Length >= 2 && next.region1 != fl.m.ptbr0 && next.kstack != next.region1
    requires !next.kernelContextInitialized ==>
      WindowIs(fl.m, current.kstack) && next != current
      && Paired(current.kstack[..], next.kstack[..], ValidPfns(next.kstack[..]), fl.m.ram.Length)
      && Distinct(ValidPfns(next.kstack[..]) + fl.queue)
    modifies current`userContext, current`kernelContext, next`kernelContext, next`kernelContextInitialized
    modifies fl.m`tlb, fl.m`ptbr1, fl.m.ram, fl.m.ptbr0
    ensures fl.Valid() && fl.m.ptbr1 == next.region1 && OwnWindow(fl.m, next) && fl.m.tlb == map[]
    ensures next.kernelContextInitialized
    ensures fl.m.ptbr0[..fl.m.Window() - next.kstack.Length] == old(fl.m.ptbr0[..fl.m.Window() - next.kstack.Length])
    ensures current.userContext == user && current.kernelContext == kernel
    ensures user' == next.userContext && kernel' == next.kernelContext
    ensures next != current ==> next.userContext == old(next.userContext)
    ensures old(next.kernelContextInitialized) ==>
      fl.m.ram[..] == old(fl.m.ram[..]) && (next != current ==> next.kernelContext == old(next.kernelContext))
    ensures !old(next.kernelContextInitialized) ==>
      kernel' == kernel && Copied(old(fl.m.ram[..]), fl.m.ram[..], current.kstack[..], next.kstack[..], 0)
      && Untouched(old(fl.m.ram[..]), fl.m.ram[..], ValidPfns(next.kstack[..]))
  {
    current.userContext := user;
    fl.m.WritePtbr1(next.region1);
    fl.m.FlushRegionOne();
    SaveKernelContextAndSwitch(fl, current, next, kernel);
    return next.userContext, next.kernelContext;
  }

  /** The last part of KernelExit: the memory of the process goes back to the free queue, and the CPU
      goes to a process that has run before. The window then still holds the freed stack of `p`. */
  method ExitToProc(fl: FrameList, p: Pcb, next: Pcb, user: UserContext, kernel: KernelContext)
    returns (user': UserContext, kernel': KernelContext)
    requires fl.Valid() && fl.m.ptbr1 == p.region1 && p.region1 != p.kstack && next != p
    requires p.kernelContextInitialized && next.kernelContextInitialized
    requires Private(p.region1[..], fl.queue, fl.m.ram.Length)
    requires Private(p.kstack[..], fl.queue + ValidPfns(p.region1[..]), fl.m.ram.Length)
    requires next.kstack.Length == p.kstack.Length <= fl.m.Window() && next.region1.Length >= 2
    requires next.kstack != next.region1 && fl.m.ptbr0 !in {next.kstack, next.region1, p.kstack}
    requires p.region1 !in {next.kstack, next.region1} && p.kstack !in {next.kstack, next.region1}
    modifies fl, fl.m`tlb, fl.m`ptbr1, fl.m.ram, fl.m.ptbr0, p.region1, p.kstack
    modifies p`userContext, p`kernelContext, next`kernelContext, next`kernelContextInitialized
    ensures fl.Valid() && fl.queue == ExitQueue(old(fl.queue), old(p.region1[..]), old(p.kstack[..]))
    ensures fl.m.ptbr1 == next.region1 && OwnWindow(fl.m, next) && fl.m.tlb == map[]
    ensures user' == next.userContext && kernel' == next.kernelContext == old(next.kernelContext)
    ensures SpaceOf(next) == old(SpaceOf(next)) && next.kstack[..] == old(next.kstack[..])
    ensures fl.m.ptbr0[..fl.m.Window() - next.kstack.Length] == old(fl.m.ptbr0[..fl.m.Window() - next.kstack.Length])
  {
    ReleaseMemory(fl, p);
    user', kernel' := SwitchToProc(fl, p, next, user, kernel);
  }
}
