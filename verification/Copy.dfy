/** Copying an address space and a kernel stack. The kernel can only reach a frame
    through a mapped page, so both copies slide a one-page destination slot
    down the address range they are copying. */
module Copy {
  import opened Hardware
  import opened PMem
  import opened VMem

  /** For the pages from `base` on the TLB agrees with the entries `w`; other pages are as in `tlb0`. */
  ghost predicate Agrees(tlb: Tlb, tlb0: Tlb, base: nat, w: seq<Pte>) {
    forall v | v in tlb ::
      if base <= v < base + |w| then tlb[v] == w[v - base] else v in tlb0 && tlb[v] == tlb0[v]
  }

  /** A frame whose first `i` words come from `a` and the rest from `b`. */
  ghost function Mixed(a: Frame, b: Frame, i: nat): (r: Frame)
    requires i <= PAGE_WORDS
    ensures forall k | 0 <= k < PAGE_WORDS :: r[k] == if k < i then a[k] else b[k]
    ensures i == 0 ==> r == b
    ensures i == PAGE_WORDS ==> r == a
  {
    a[..i] + b[i..]
  }

  lemma MixedStep(a: Frame, b: Frame, i: nat)
    requires i < PAGE_WORDS
    ensures Mixed(a, b, i + 1) == Mixed(a, b, i)[i := a[i]]
  {
  }

  /** TLB `a` is `b` after evictions and refills of pages `src` and `dst` only. */
  ghost predicate Touched(a: Tlb, b: Tlb, src: nat, srcPte: Pte, dst: nat, dstPte: Pte) {
    forall v | v in a ::
      (v in b && a[v] == b[v]) || (v == src && a[v] == srcPte) || (v == dst && a[v] == dstPte)
  }

  method CopyWord(m: Machine, src: nat, dst: nat, i: nat)
    requires m.Coherent(src) && m.Coherent(dst) && i < PAGE_WORDS
    requires m.Mapped(src, false) && m.Mapped(dst, true)
    modifies m`tlb, m.ram
    ensures m.ram[..] ==
      old(m.ram[..])[m.Entry(dst).pfn := old(m.ram[m.Entry(dst).pfn])[i := old(m.ram[m.Entry(src).pfn])[i]]]
    ensures Touched(m.tlb, old(m.tlb), src, m.Entry(src), dst, m.Entry(dst))
  {
    var w := m.Load(src, i);
    m.Store(dst, i, w);
  }

  /** Copies a page word by word through the TLB (CopyRegion0PageData and
      CopyRegion1PageData, which differ only in the base of the region). */
  method CopyPageData(m: Machine, src: nat, dst: nat)
    requires m.Coherent(src) && m.Coherent(dst)
    requires m.Mapped(src, false) && m.Mapped(dst, true)
    requires m.Entry(src).pfn != m.Entry(dst).pfn
    modifies m`tlb, m.ram
    ensures m.ram[..] == old(m.ram[..])[m.Entry(dst).pfn := old(m.ram[m.Entry(src).pfn])]
    ensures Touched(m.tlb, old(m.tlb), src, m.Entry(src), dst, m.Entry(dst))
  {
    ghost var s, d, ram0 := m.Entry(src).pfn, m.Entry(dst).pfn, m.ram[..];
    var i := 0;
    while i < PAGE_WORDS
      invariant 0 <= i <= PAGE_WORDS
      invariant m.ram[..] == ram0[d := Mixed(ram0[s], ram0[d], i)]
      invariant Touched(m.tlb, old(m.tlb), src, m.Entry(src), dst, m.Entry(dst))
    {
      assert m.ram[s] == m.ram[..][s] && m.ram[d] == m.ram[..][d];
      MixedStep(ram0[s], ram0[d], i);
      CopyWord(m, src, dst, i);
      i := i + 1;
    }
  }

  /** Every valid page of `s` from `lo` on has its bytes in the frame `d` gives it. */
  ghost predicate Copied(ram0: seq<Frame>, ram: seq<Frame>, s: seq<Pte>, d: seq<Pte>, lo: nat) {
    |s| == |d| && |ram| == |ram0|
    && forall k | lo <= k < |s| && s[k].valid ::
      s[k].pfn < |ram| && d[k].pfn < |ram| && ram[d[k].pfn] == ram0[s[k].pfn]
  }

  /** `d` gives each valid page of `s` a frame of its own, from `pool`, which holds no frame of `s`. */
  ghost predicate Paired(s: seq<Pte>, d: seq<Pte>, pool: seq<nat>, frames: nat) {
    |s| == |d| >= 2
    && (forall k | 0 <= k < |s| && s[k].valid ::
      s[k].pfn < frames && s[k].prot.read && s[k].pfn !in pool
      && d[k].valid && d[k].pfn < frames && d[k].prot.write && d[k].pfn in pool)
    && (forall j, k | 0 <= j < k < |s| && s[j].valid && s[k].valid :: d[j].pfn != d[k].pfn)
  }

  /** One more page copied into the frame of page `k`. */
  lemma CopiedStep(ram0: seq<Frame>, ram: seq<Frame>, s: seq<Pte>, d: seq<Pte>, k: nat, pool: seq<nat>)
    requires Paired(s, d, pool, |ram0|) && k < |s| && s[k].valid
    requires Untouched(ram0, ram, pool) && Copied(ram0, ram, s, d, k + 1)
    ensures Untouched(ram0, ram[d[k].pfn := ram[s[k].pfn]], pool)
    ensures Copied(ram0, ram[d[k].pfn := ram[s[k].pfn]], s, d, k)
  {
  }

  /** A window entry may be changed once its page has been flushed. */
  lemma AgreesFlush(tlb: Tlb, after: Tlb, tlb0: Tlb, base: nat, w: seq<Pte>, k: nat, pte: Pte)
    requires Agrees(tlb, tlb0, base, w) && k < |w| && Within(after, tlb) && base + k !in after
    ensures Agrees(after, tlb0, base, w[k := pte])
  {
  }

  lemma AgreesCopy(tlb: Tlb, after: Tlb, tlb0: Tlb, base: nat, w: seq<Pte>, a: nat, b: nat)
    requires Agrees(tlb, tlb0, base, w) && a < |w| && b < |w|
    requires Touched(after, tlb, base + a, w[a], base + b, w[b])
    ensures Agrees(after, tlb0, base, w)
  {
  }

  /** `t` is an active page table and its entries from `off` on translate the pages from `base` on. */
  ghost predicate Active(m: Machine, t: array<Pte>, off: nat, base: nat)
    reads m
  {
    m.ptbr0 != m.ptbr1 && off <= t.Length
    && ((t == m.ptbr0 && base == off) || (t == m.ptbr1 && base == m.Window() + off))
  }

  /** Overwrites one entry of an active window and flushes its page. */
  method PointSlot(m: Machine, t: array<Pte>, off: nat, base: nat, slot: nat, pte: Pte, ghost tlb0: Tlb)
    requires Active(m, t, off, base) && off + slot < t.Length && Agrees(m.tlb, tlb0, base, t[off..])
    modifies m`tlb, t
    ensures t[..] == old(t[..])[off + slot := pte] && t[off..] == old(t[off..])[slot := pte]
    ensures Agrees(m.tlb, tlb0, base, t[off..]) && base + slot !in m.tlb
  {
    ghost var w, tlb1 := t[off..], m.tlb;
    t[off + slot] := pte;
    m.FlushPage(base + slot);
    AgreesFlush(tlb1, m.tlb, tlb0, base, w, slot, pte);
    assert t[off..] == w[slot := pte];
  }

  /** Points slot `to` of an active window at the frame of `pte` and copies page `from` into it. */
  method CopyThroughSlot(m: Machine, t: array<Pte>, off: nat, base: nat, to: nat, pte: Pte, from: nat, ghost tlb0: Tlb)
    requires Active(m, t, off, base) && off + to < t.Length && off + from < t.Length && to != from
    requires Agrees(m.tlb, tlb0, base, t[off..])
    requires m.Usable(pte) && pte.prot.write
    requires m.Usable(t[off + from]) && t[off + from].prot.read && t[off + from].pfn != pte.pfn
    modifies m`tlb, m.ram, t
    ensures t[..] == old(t[..])[off + to := pte] && Agrees(m.tlb, tlb0, base, t[off..])
    ensures m.ram[..] == old(m.ram[..])[pte.pfn := old(m.ram[t[off + from].pfn])]
  {
    ghost var w := t[off..];
    assert w[from] == t[off + from];
    PointSlot(m, t, off, base, to, pte, tlb0);
    assert t[off..] == w[to := pte];
    ghost var tlb1 := m.tlb;
    CopyPageData(m, base + from, base + to);
    AgreesCopy(tlb1, m.tlb, tlb0, base, w[to := pte], from, to);
  }

  /** Pages n-2 down to 0 of a window: slot i+1 is pointed at the new frame for page i
      while page i is copied into it. */
  method SlideDown(m: Machine, t: array<Pte>, off: nat, base: nat, dest: array<Pte>,
                   ghost s: seq<Pte>, ghost pool: seq<nat>, ghost ram0: seq<Frame>, ghost tlb0: Tlb)
    requires Active(m, t, off, base) && t != dest && t[off..] == s
    requires |ram0| == m.ram.Length && Paired(s, dest[..], pool, |ram0|)
    requires Agrees(m.tlb, tlb0, base, s)
    requires Untouched(ram0, m.ram[..], pool) && Copied(ram0, m.ram[..], s, dest[..], |s| - 1)
    modifies m`tlb, m.ram, t
    ensures t[..off] == old(t[..off]) && Agrees(m.tlb, tlb0, base, t[off..])
    ensures Untouched(ram0, m.ram[..], pool) && Copied(ram0, m.ram[..], s, dest[..], 0)
  {
    ghost var d := dest[..];
    assert forall j | 0 <= j < |s| :: t[off + j] == t[off..][j];
    var i := dest.Length - 2;
    while i >= 0
      invariant -1 <= i <= dest.Length - 2
      invariant dest[..] == d && t[..off] == old(t[..off]) && forall j | 0 <= j < i + 2 :: t[off + j] == s[j]
      invariant Agrees(m.tlb, tlb0, base, t[off..])
      invariant Untouched(ram0, m.ram[..], pool) && Copied(ram0, m.ram[..], s, d, i + 1)
    {
      if t[off + i].valid {
        CopiedStep(ram0, m.ram[..], s, d, i, pool);
        CopyThroughSlot(m, t, off, base, i + 1, dest[i], i, tlb0);
      }
      i := i - 1;
    }
  }

  /** The last page of a window goes first, through slot 0, which is then given back. */
  method CopyLastPage(m: Machine, t: array<Pte>, off: nat, base: nat, source: array<Pte>, dest: array<Pte>,
                      ghost s: seq<Pte>, ghost pool: seq<nat>)
    requires Active(m, t, off, base) && t != dest && t != source && t[off..] == s == source[..]
    requires Paired(s, dest[..], pool, m.ram.Length)
    requires Agrees(m.tlb, m.tlb, base, s)
    modifies m`tlb, m.ram, t
    ensures t[..] == old(t[..]) && Agrees(m.tlb, old(m.tlb), base, s)
    ensures Copied(old(m.ram[..]), m.ram[..], s, dest[..], |s| - 1)
    ensures Untouched(old(m.ram[..]), m.ram[..], pool)
  {
    var n := source.Length;
    ghost var all := t[..];
    assert t[off + n - 1] == s[n - 1] && t[off] == s[0];
    if t[off + n - 1].valid {
      CopiedStep(m.ram[..], m.ram[..], s, dest[..], n - 1, pool);
      CopyThroughSlot(m, t, off, base, 0, dest[n - 1], n - 1, m.tlb);
    }
    PointSlot(m, t, off, base, 0, source[0], old(m.tlb));
    assert t[..] == all;
  }

  /** The whole sliding copy of a window whose entries are those of `source`. */
  method SlideCopy(m: Machine, t: array<Pte>, off: nat, base: nat, source: array<Pte>, dest: array<Pte>, ghost pool: seq<nat>)
    requires Active(m, t, off, base) && t != dest && t != source && t[off..] == source[..]
    requires Paired(source[..], dest[..], pool, m.ram.Length)
    requires Agrees(m.tlb, m.tlb, base, source[..])
    modifies m`tlb, m.ram, t
    ensures t[..off] == old(t[..off]) && Agrees(m.tlb, old(m.tlb), base, t[off..])
    ensures Copied(old(m.ram[..]), m.ram[..], source[..], dest[..], 0)
    ensures Untouched(old(m.ram[..]), m.ram[..], pool)
  {
    ghost var s, ram0, tlb0, all := source[..], m.ram[..], m.tlb, t[..];
    CopyLastPage(m, t, off, base, source, dest, s, pool);
    assert t[off..] == t[..][off..] && all[off..] == s && t[..off] == all[..off];
    SlideDown(m, t, off, base, dest, s, pool, ram0, tlb0);
  }

  /** The copying half of CopyRegion1PageTableAndData, on a temporary table that starts
      as the source's. The child's protections follow, and only then does REG_PTBR1 go back. */
  method CopyRegion1Data(m: Machine, source: array<Pte>, dest: array<Pte>, ghost pool: seq<nat>)
    requires m.ptbr1 == source && source != m.ptbr0 && source != dest
    requires Paired(source[..], dest[..], pool, m.ram.Length)
    modifies m`tlb, m`ptbr1, m.ram, dest
    ensures m.ptbr1 == source && (forall v | v in m.tlb :: v < m.Window()) && Within(m.tlb, old(m.tlb))
    ensures Copied(old(m.ram[..]), m.ram[..], source[..], dest[..], 0)
    ensures Untouched(old(m.ram[..]), m.ram[..], pool)
    ensures forall i | 0 <= i < dest.Length ::
      dest[i] == if source[i].valid then old(dest[i]).(prot := source[i].prot) else old(dest[i])
  {
    ghost var s, d := source[..], dest[..];
    var temp := new Pte[source.Length](i requires 0 <= i < source.Length reads source => source[i]);
    assert temp[..] == s && temp[0..] == s && dest[..] == d;
    m.WritePtbr1(temp);
    m.FlushRegionOne();
    SlideCopy(m, temp, 0, m.Window(), source, dest, pool);
    CopyProtections(source, dest);
    m.WritePtbr1(source);
    m.FlushRegionOne();
  }

  /** Copies the page table entries of a kernel stack into the region 0 window (no flush). */
  method UseKernelStackForProc(m: Machine, stack: array<Pte>)
    requires stack.Length <= m.ptbr0.Length && stack != m.ptbr0
    modifies m.ptbr0
    ensures m.ptbr0[..m.Window() - stack.Length] == old(m.ptbr0[..m.Window() - stack.Length])
    ensures m.ptbr0[m.Window() - stack.Length..] == stack[..]
  {
    var base := m.Window() - stack.Length;
    for i := 0 to stack.Length
      invariant m.ptbr0[..base] == old(m.ptbr0[..base])
      invariant m.ptbr0[base..base + i] == stack[..i]
    {
      m.ptbr0[base + i] := stack[i];
    }
  }

  /** Copies the live kernel stack of `source` into the frames of `dest`, using the stack's
      own window of region 0. The source's frames keep their bytes. */
  method CopyKernelStackPageTableAndData(m: Machine, source: array<Pte>, dest: array<Pte>, ghost pool: seq<nat>)
    requires m.ptbr0 != m.ptbr1 && source.Length <= m.Window() && source != m.ptbr0 && dest != m.ptbr0
    requires m.ptbr0[m.Window() - source.Length..] == source[..]
    requires Agrees(m.tlb, m.tlb, m.Window() - source.Length, source[..])
    requires Paired(source[..], dest[..], pool, m.ram.Length)
    modifies m`tlb, m.ram, m.ptbr0
    ensures m.ptbr0[..m.Window() - source.Length] == old(m.ptbr0[..m.Window() - source.Length])
    ensures Copied(old(m.ram[..]), m.ram[..], source[..], dest[..], 0)
    ensures Untouched(old(m.ram[..]), m.ram[..], pool)
  {
    var base := m.Window() - source.Length;
    SlideCopy(m, m.ptbr0, base, base, source, dest, pool);
  }

  /** What the allocation loop has built after looking at the first `i` pages. */
  ghost predicate Allotted(s: seq<Pte>, d0: seq<Pte>, d: seq<Pte>, i: nat, q: seq<nat>) {
    i <= |s| == |d| == |d0| && |ValidPfns(s[..i])| <= |q|
    && ValidPfns(d[..i]) == q[..|ValidPfns(s[..i])|]
    && (forall j | 0 <= j < i && s[j].valid ::
      |ValidPfns(s[..j])| < |q| && d[j] == Pte(true, WRITE_ONLY, q[|ValidPfns(s[..j])|]))
    && (forall j | 0 <= j < |d| && (j < i ==> !s[j].valid) :: d[j] == d0[j] && !d[j].valid)
  }

  lemma AllottedStep(s: seq<Pte>, d0: seq<Pte>, d: seq<Pte>, i: nat, q: seq<nat>)
    requires Allotted(s, d0, d, i, q) && i < |s|
    ensures !s[i].valid ==> Allotted(s, d0, d, i + 1, q)
    ensures s[i].valid && |ValidPfns(s[..i])| < |q| ==>
      Allotted(s, d0, d[i := Pte(true, WRITE_ONLY, q[|ValidPfns(s[..i])|])], i + 1, q)
  {
    ValidPfnsStep(s, i);
    ValidPfnsStep(d, i);
    if s[i].valid && |ValidPfns(s[..i])| < |q| {
      var d' := d[i := Pte(true, WRITE_ONLY, q[|ValidPfns(s[..i])|])];
      ValidPfnsStep(d', i);
      assert d'[..i] == d[..i];
    }
  }

  /** The outcome when the free queue `q` runs out: it is back as it was, and of the
      child's entries only the one that could not be filled is left marked valid. */
  ghost predicate OutOfFrames(s: seq<Pte>, d0: seq<Pte>, d: seq<Pte>, q: seq<nat>, bad: nat) {
    bad < |s| == |d| == |d0| && s[bad].valid && |ValidPfns(s[..bad])| == |q|
    && d[bad] == Pte(true, WRITE_ONLY, d0[bad].pfn)
    && forall j | 0 <= j < |d| && j != bad :: !d[j].valid
  }

  method AllotPage(fl: FrameList, dest: array<Pte>, i: nat) returns (ok: bool)
    requires fl.Valid() && dest != fl.m.ptbr1 && i < dest.Length
    modifies fl, fl.m`tlb, fl.m.ptbr1, dest
    ensures fl.Valid() && ok == (old(fl.queue) != []) && fl.m.ptbr1[..] == old(fl.m.ptbr1[..])
    ensures ok ==> fl.queue == old(fl.queue)[1..] && dest[..] == old(dest[..])[i := Pte(true, WRITE_ONLY, old(fl.queue)[0])]
    ensures !ok ==> fl.queue == [] && dest[..] == old(dest[..])[i := Pte(true, WRITE_ONLY, old(dest[i].pfn))]
    ensures Within(fl.m.tlb, old(fl.m.tlb))
  {
    dest[i] := Pte(true, WRITE_ONLY, dest[i].pfn);
    ok := fl.GetUnusedFrame(dest, i);
  }

  /** The failure path of the allocation loop: the child's frames so far are the whole
      queue `q`, and go back in the order they were taken. */
  method RollBackAllocation(fl: FrameList, dest: array<Pte>, i: nat,
                            ghost s: seq<Pte>, ghost d0: seq<Pte>, ghost d: seq<Pte>, ghost q: seq<nat>)
    requires fl.Valid() && fl.queue == [] && dest != fl.m.ptbr1 && Distinct(q) && Below(q, fl.m.ram.Length)
    requires Allotted(s, d0, d, i, q) && i < |s| && |ValidPfns(s[..i])| == |q| && s[i].valid
    requires dest[..] == d[i := Pte(true, WRITE_ONLY, d[i].pfn)]
    modifies fl, fl.m`tlb, fl.m.ram, fl.m.ptbr1, dest
    ensures fl.Valid() && fl.queue == q && OutOfFrames(s, d0, dest[..], q, i)
    ensures fl.m.ptbr1[..] == old(fl.m.ptbr1[..])
    ensures Untouched(old(fl.m.ram[..]), fl.m.ram[..], q) && Within(fl.m.tlb, old(fl.m.tlb))
  {
    assert dest[..i] == d[..i] && ValidPfns(dest[..i]) == q;
    PfnsPrivate(dest[..i], fl.m.ram.Length);
    ghost var before := dest[..];
    FreePages(fl, dest, i);
    assert forall j | 0 <= j < |d| && j != i :: before[j] == d[j];
  }

  lemma PfnsPrivate(t: seq<Pte>, frames: nat)
    requires Distinct(ValidPfns(t)) && Below(ValidPfns(t), frames)
    ensures Private(t, [], frames)
  {
    forall i | 0 <= i < |t| && t[i].valid ensures t[i].pfn < frames {
      ValidPfnsAt(t, i);
    }
    forall i, j | 0 <= i < j < |t| && t[i].valid && t[j].valid ensures t[i].pfn != t[j].pfn {
      ValidPfnsOrder(t, i, j);
      ValidPfnsAt(t, i);
      ValidPfnsAt(t, j);
    }
  }

  /** One turn of the allocation loop at a valid page of the source. */
  method AllotNext(fl: FrameList, dest: array<Pte>, i: nat,
                   ghost s: seq<Pte>, ghost d0: seq<Pte>, ghost q: seq<nat>) returns (ok: bool)
    requires fl.Valid() && dest != fl.m.ptbr1 && Distinct(q) && Below(q, fl.m.ram.Length)
    requires Allotted(s, d0, dest[..], i, q) && i < |s| && s[i].valid && fl.queue == q[|ValidPfns(s[..i])|..]
    modifies fl, fl.m`tlb, fl.m.ram, fl.m.ptbr1, dest
    ensures fl.Valid() && fl.m.ptbr1[..] == old(fl.m.ptbr1[..]) && Within(fl.m.tlb, old(fl.m.tlb))
    ensures ok == (|ValidPfns(s[..i])| < |q|)
    ensures ok ==> fl.m.ram[..] == old(fl.m.ram[..])
    ensures ok ==> Allotted(s, d0, dest[..], i + 1, q) && fl.queue == q[|ValidPfns(s[..i + 1])|..]
    ensures !ok ==> fl.queue == q && Untouched(old(fl.m.ram[..]), fl.m.ram[..], q) && OutOfFrames(s, d0, dest[..], q, i)
  {
    ghost var d := dest[..];
    ValidPfnsStep(s, i);
    AllottedStep(s, d0, d, i, q);
    ok := AllotPage(fl, dest, i);
    if !ok {
      RollBackAllocation(fl, dest, i, s, d0, d, q);
    }
  }

  /** The allocation half of CopyRegion1PageTableAndData: the child gets the oldest free
      frames, one per valid page of the source in page order. */
  method AllocateLike(fl: FrameList, source: array<Pte>, dest: array<Pte>) returns (ok: bool, ghost bad: nat)
    requires fl.Valid() && fl.m.ptbr1 == source && source != dest && source.Length == dest.Length
    requires forall i | 0 <= i < dest.Length :: !dest[i].valid
    modifies fl, fl.m`tlb, fl.m.ram, source, dest
    ensures fl.Valid() && source[..] == old(source[..]) && Within(fl.m.tlb, old(fl.m.tlb))
    ensures ok == (|ValidPfns(source[..])| <= |old(fl.queue)|)
    ensures ok ==> fl.queue == old(fl.queue)[|ValidPfns(source[..])|..] && fl.m.ram[..] == old(fl.m.ram[..])
    ensures ok ==> Allotted(source[..], old(dest[..]), dest[..], source.Length, old(fl.queue))
    ensures !ok ==> fl.queue == old(fl.queue) && Untouched(old(fl.m.ram[..]), fl.m.ram[..], fl.queue)
    ensures !ok ==> OutOfFrames(source[..], old(dest[..]), dest[..], fl.queue, bad)
  {
    bad := 0;
    ghost var s, d0, q := source[..], dest[..], fl.queue;
    assert Distinct(q) && Below(q, fl.m.ram.Length) by {
      assert Look(0);
    }
    var i := 0;
    while i < source.Length
      invariant 0 <= i <= source.Length
      invariant fl.Valid() && source[..] == s && Within(fl.m.tlb, old(fl.m.tlb))
      invariant fl.m.ram[..] == old(fl.m.ram[..])
      invariant Allotted(s, d0, dest[..], i, q)
      invariant fl.queue == q[|ValidPfns(s[..i])|..]
    {
      ValidPfnsStep(s, i);
      ValidPfnsPrefix(s, i + 1);
      AllottedStep(s, d0, dest[..], i, q);
      if source[i].valid {
        var found := AllotNext(fl, dest, i, s, d0, q);
        if !found {
          return false, i;
        }
      }
      i := i + 1;
    }
    assert s[..i] == s;
    return true, bad;
  }

  /** The table fork gives the child of a process with table `s`: the same pages with the same
      protections, on the oldest free frames in page order. */
  ghost function ChildTable(s: seq<Pte>, q: seq<nat>): (d: seq<Pte>)
    requires |ValidPfns(s)| <= |q|
    ensures |d| == |s|
    ensures forall i | 0 <= i < |s| && s[i].valid ::
      |ValidPfns(s[..i])| < |q| && d[i] == Pte(true, s[i].prot, q[|ValidPfns(s[..i])|])
    ensures forall i | 0 <= i < |s| && !s[i].valid :: d[i] == BLANK_PTE
  {
    assert forall i | 0 <= i < |s| && s[i].valid :: |ValidPfns(s[..i])| < |ValidPfns(s)| by {
      forall i | 0 <= i < |s| && s[i].valid ensures |ValidPfns(s[..i])| < |ValidPfns(s)| {
        ValidPfnsAt(s, i);
      }
    }
    seq(|s|, i requires 0 <= i < |s| =>
      if s[i].valid then Pte(true, s[i].prot, q[|ValidPfns(s[..i])|]) else BLANK_PTE)
  }

  /** Allotted frames come from the head of the queue, so they pair up with the source. */
  lemma AllottedPairs(s: seq<Pte>, d0: seq<Pte>, d: seq<Pte>, q: seq<nat>, frames: nat)
    requires Allotted(s, d0, d, |s|, q) && Private(s, q, frames) && Below(q, frames) && Distinct(q) && |s| >= 2
    requires |ValidPfns(s)| <= |q| && forall i | 0 <= i < |s| && s[i].valid :: s[i].prot.read
    ensures Paired(s, d, q[..|ValidPfns(s)|], frames)
  {
    var pool := q[..|ValidPfns(s)|];
    forall k | 0 <= k < |s| && s[k].valid ensures s[k].pfn !in pool && d[k].pfn in pool {
      ValidPfnsAt(s, k);
      assert pool[|ValidPfns(s[..k])|] == d[k].pfn;
    }
    forall j, k | 0 <= j < k < |s| && s[j].valid && s[k].valid ensures d[j].pfn != d[k].pfn {
      ValidPfnsOrder(s, j, k);
    }
  }

  lemma LinksSurvive(ram0: seq<Frame>, ram: seq<Frame>, pool: seq<nat>, q: seq<nat>)
    requires Below(q, |ram0|) && Distinct(pool + q) && Linked(ram0, q) && Untouched(ram0, ram, pool)
    ensures Linked(ram, q)
  {
    forall i | 0 <= i < |q| ensures ram[q[i]] == ram0[q[i]] {
      assert (pool + q)[|pool| + i] == q[i];
      assert forall j | 0 <= j < |pool| :: (pool + q)[j] == pool[j];
    }
  }

  /** Deep copy of an address space, from any TLB state. The source keeps its table, its
      frames and REG_PTBR1; every valid page of the child has the bytes of the parent's page
      in a frame that was free. Without enough frames the free queue comes back unchanged. */
  method CopyRegion1PageTableAndData(fl: FrameList, source: array<Pte>, dest: array<Pte>)
    returns (ok: bool, ghost bad: nat)
    requires fl.Valid() && fl.m.ptbr1 == source && source != fl.m.ptbr0 && dest != source && dest != fl.m.ptbr0
    requires source.Length == dest.Length && forall i | 0 <= i < dest.Length :: dest[i] == BLANK_PTE
    requires Private(source[..], fl.queue, fl.m.ram.Length)
    requires forall i | 0 <= i < source.Length && source[i].valid :: source[i].prot.read
    modifies fl, fl.m`tlb, fl.m`ptbr1, fl.m.ram, source, dest
    ensures fl.Valid() && fl.m.ptbr1 == source && source[..] == old(source[..]) && Within(fl.m.tlb, old(fl.m.tlb))
    ensures ok == (|ValidPfns(source[..])| <= |old(fl.queue)|)
    ensures ok ==> dest[..] == ChildTable(source[..], old(fl.queue))
    ensures ok ==> fl.queue == old(fl.queue)[|ValidPfns(source[..])|..]
    ensures ok ==> Copied(old(fl.m.ram[..]), fl.m.ram[..], source[..], dest[..], 0)
    ensures ok ==> Untouched(old(fl.m.ram[..]), fl.m.ram[..], old(fl.queue)[..|ValidPfns(source[..])|])
    ensures ok ==> forall v | v in fl.m.tlb :: v < fl.m.Window()
    ensures !ok ==> fl.queue == old(fl.queue) && Untouched(old(fl.m.ram[..]), fl.m.ram[..], fl.queue)
    ensures !ok ==> OutOfFrames(source[..], old(dest[..]), dest[..], fl.queue, bad)
  {
    ghost var q, d0 := fl.queue, dest[..];
    assert Distinct(q) && Below(q, fl.m.ram.Length) by {
      assert Look(0);
    }
    ok, bad := AllocateLike(fl, source, dest);
    if ok {
      ghost var pool := q[..|ValidPfns(source[..])|];
      AllottedPairs(source[..], d0, dest[..], q, fl.m.ram.Length);
      assert pool + fl.queue == q;
      CopyAllotted(fl, source, dest, pool);
      assert dest[..] == ChildTable(source[..], q);
    }
  }

  /** CopyRegion1PageTableAndData once every frame has been allotted. */
  method CopyAllotted(fl: FrameList, source: array<Pte>, dest: array<Pte>, ghost pool: seq<nat>)
    requires fl.Valid() && fl.m.ptbr1 == source && source != fl.m.ptbr0 && dest != source && dest != fl.m.ptbr0
    requires Distinct(pool + fl.queue) && Paired(source[..], dest[..], pool, fl.m.ram.Length)
    modifies fl.m`tlb, fl.m`ptbr1, fl.m.ram, dest
    ensures fl.Valid() && fl.m.ptbr1 == source && Within(fl.m.tlb, old(fl.m.tlb))
    ensures forall i | 0 <= i < dest.Length ::
      dest[i] == if source[i].valid then old(dest[i]).(prot := source[i].prot) else old(dest[i])
    ensures Copied(old(fl.m.ram[..]), fl.m.ram[..], source[..], dest[..], 0)
    ensures Untouched(old(fl.m.ram[..]), fl.m.ram[..], pool)
    ensures forall v | v in fl.m.tlb :: v < fl.m.Window()
  {
    CopyRegion1Data(fl.m, source, dest, pool);
    assert fl.Valid() by {
      assert Look(0);
      LinksSurvive(old(fl.m.ram[..]), fl.m.ram[..], pool, fl.queue);
    }
  }

  /** The last loop of CopyRegion1PageTableAndData. */
  method CopyProtections(source: array<Pte>, dest: array<Pte>)
    requires source != dest && source.Length == dest.Length
    modifies dest
    ensures forall i | 0 <= i < dest.Length ::
      dest[i] == if source[i].valid then old(dest[i]).(prot := source[i].prot) else old(dest[i])
  {
    for i := 0 to source.Length
      invariant forall k | 0 <= k < dest.Length ::
        dest[k] == if k < i && source[k].valid then old(dest[k]).(prot := source[k].prot) else old(dest[k])
    {
      if source[i].valid {
        dest[i] := dest[i].(prot := source[i].prot);
      }
    }
  }
}
