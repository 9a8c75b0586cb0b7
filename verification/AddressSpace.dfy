/** What the kernel calls that change an address space do to a page table and the free queue. */
module AddressSpace {
  import opened Hardware
  import opened PMem
  import opened VMem
  import opened Copy

  const PAGESIZE: nat := 0x2000
  const U32: nat := 0x1_0000_0000

  /** A page table with the user break and the bottom of the user stack, as page numbers. */
  datatype Space = Space(t: seq<Pte>, brk: int, lowest: int)

  datatype Change = Change(space: Space, queue: seq<nat>, ok: bool)

  /** Valid pages are exactly those below the break and those of the user stack, and at
      least one blank page separates the two. */
  ghost predicate Layout(s: Space) {
    0 <= s.brk < s.lowest <= |s.t| && forall i | 0 <= i < |s.t| :: s.t[i].valid <==> i < s.brk || s.lowest <= i
  }

  ghost predicate Readable(t: seq<Pte>) {
    forall i | 0 <= i < |t| && t[i].valid :: t[i].prot.read
  }

  ghost function MapPages(s: Space, q: seq<nat>, lo: nat, n: nat, prot: Prot): (c: Change)
  {
    if n <= |q| then Change(s.(t := Filled(s.t, lo, q[..n], prot)), q[n..], true)
    else Change(s.(t := Cleared(Filled(s.t, lo, q, prot), lo, lo + |q|)), q, false)
  }

  ghost function UnmapPages(s: Space, q: seq<nat>, lo: nat, hi: nat): Change
    requires lo <= hi <= |s.t|
  {
    Change(s.(t := Cleared(s.t, lo, hi)), q + ValidPfns(s.t[lo..hi]), true)
  }

  /** The page KernelBrk computes for an address, in 32-bit unsigned arithmetic. */
  function BrkPage(addr: nat, regionBasePage: nat): nat {
    ((addr - 1) % U32 / PAGESIZE + 1 - regionBasePage) % U32
  }

  /** An accepted break page is the address rounded up to a page, relative to region 1. */
  lemma BrkRoundsUp(addr: nat, regionBasePage: nat, lowest: nat)
    requires addr < U32 && regionBasePage + lowest <= U32 / PAGESIZE
    requires BrkPage(addr, regionBasePage) < lowest
    ensures addr <= (regionBasePage + BrkPage(addr, regionBasePage)) * PAGESIZE < addr + PAGESIZE
  {
    var page := (addr - 1) % U32 / PAGESIZE + 1;
    assert page <= U32 / PAGESIZE;
  }

  /** The page an address is rounded up to, relative to region 1; negative for addresses below region 1
      and for the address 0. */
  function PageAbove(addr: nat, regionBasePage: nat): int {
    if addr == 0 then -1 else (addr + PAGESIZE - 1) / PAGESIZE - regionBasePage
  }

  /** The unsigned arithmetic of KernelBrk computes that page, or a page behind the end of the table when it
      is negative. */
  lemma BrkPageIs(addr: nat, regionBasePage: nat, pages: nat)
    requires addr < U32 && regionBasePage + pages <= U32 / PAGESIZE
    ensures var page := PageAbove(addr, regionBasePage);
      if page >= 0 then BrkPage(addr, regionBasePage) == page else BrkPage(addr, regionBasePage) >= pages
  {
    if addr == 0 {
      assert (addr - 1) % U32 / PAGESIZE + 1 == U32 / PAGESIZE;
    } else {
      assert (addr - 1) / PAGESIZE + 1 == (addr + PAGESIZE - 1) / PAGESIZE;
      assert 0 < (addr + PAGESIZE - 1) / PAGESIZE <= U32 / PAGESIZE;
    }
  }

  /** What moving the break to `page` comes to. It succeeds exactly when a page stays blank below the stack
      and the frames for new pages suffice. New pages take the oldest frames in page order; the frames of
      pages that are given up go to the back of the queue in page order; nothing else changes. A break
      that is refused changes no break, no queue and no valid bit. */
  ghost predicate Broke(s: Space, q: seq<nat>, page: int, s': Space, q': seq<nat>, ok: bool) {
    ok == (0 <= page < s.lowest && (page <= s.brk || page - s.brk <= |q|))
    && s'.lowest == s.lowest && |s'.t| == |s.t|
    && (if ok then
          s'.brk == page
          && (page >= s.brk ==>
                q' == q[page - s.brk..]
                && forall i | 0 <= i < |s.t| ::
                  s'.t[i] == if s.brk <= i < page then Pte(true, READ_WRITE, q[i - s.brk]) else s.t[i])
          && (page < s.brk <= |s.t| ==>
                |q'| == |q| + s.brk - page && q'[..|q|] == q
                && (forall i | page <= i < s.brk :: q'[|q| + i - page] == s.t[i].pfn)
                && forall i | 0 <= i < |s.t| :: s'.t[i] == if page <= i < s.brk then s.t[i].(valid := false) else s.t[i])
        else
          s'.brk == s.brk && q' == q
          && forall i | 0 <= i < |s.t| :: s'.t[i].valid == s.t[i].valid && (s'.t[i] == s.t[i] || s.brk <= i < page))
  }

  lemma BrkResult(s: Space, q: seq<nat>, page: nat)
    requires Layout(s)
    ensures var c := Brk(s, q, page); Broke(s, q, page, c.space, c.queue, c.ok)
  {
    if page < s.brk {
      ValidPfnsAll(s.t[page..s.brk]);
    }
  }

  lemma BrkOutcome(s: Space, q: seq<nat>, addr: nat, regionBasePage: nat)
    requires Layout(s) && addr < U32 && regionBasePage + |s.t| <= U32 / PAGESIZE
    ensures var c := Brk(s, q, BrkPage(addr, regionBasePage));
      Broke(s, q, PageAbove(addr, regionBasePage), c.space, c.queue, c.ok)
  {
    BrkPageIs(addr, regionBasePage, |s.t|);
    BrkResult(s, q, BrkPage(addr, regionBasePage));
  }

  ghost function Brk(s: Space, q: seq<nat>, page: nat): Change
    requires 0 <= s.brk < s.lowest <= |s.t|
  {
    if page >= s.lowest then Change(s, q, false)
    else if page > s.brk then
      var c := MapPages(s, q, s.brk, page - s.brk, READ_WRITE);
      if c.ok then c.(space := c.space.(brk := page)) else c
    else if page < s.brk then
      var c := UnmapPages(s, q, page, s.brk);
      c.(space := c.space.(brk := page))
    else Change(s, q, true)
  }

  /** Stack growth maps pages from `from` down to `page`, each to the oldest free frame. */
  ghost function Grow(s: Space, q: seq<nat>, from: int, page: nat): Change
    requires from < |s.t|
    decreases from - page
  {
    if from < page then Change(s.(lowest := page), q, true)
    else if q == [] then Change(s, q, false)
    else Grow(s.(t := s.t[from := Pte(true, READ_WRITE, q[0])]), q[1..], from - 1, page)
  }

  /** What growing the stack down to `page` comes to, in terms of the space and the free queue before: it
      succeeds exactly when the frames suffice, the pages below the old bottom take the oldest frames
      from the top down, and nothing else changes. When the frames run out, the pages that got one stay
      mapped and the bottom is not moved. */
  ghost predicate Grew(s: Space, q: seq<nat>, page: nat, s': Space, q': seq<nat>, ok: bool) {
    var need := s.lowest - page;
    var k := if ok then need else |q|;
    ok == (need <= |q|) && 0 <= k <= |q| && q' == q[k..]
    && s'.brk == s.brk && s'.lowest == (if ok then page else s.lowest) && |s'.t| == |s.t|
    && forall i | 0 <= i < |s.t| ::
      s'.t[i] == if s.lowest - k <= i < s.lowest then Pte(true, READ_WRITE, q[s.lowest - 1 - i]) else s.t[i]
  }

  lemma {:induction false} GrowTakes(s: Space, q: seq<nat>, from: int, page: nat)
    requires page - 1 <= from < |s.t|
    ensures var c, need := Grow(s, q, from, page), from + 1 - page;
      var k := if need <= |q| then need else |q|;
      c.ok == (need <= |q|) && c.queue == q[k..]
      && c.space.brk == s.brk && c.space.lowest == (if c.ok then page else s.lowest) && |c.space.t| == |s.t|
      && forall i | 0 <= i < |s.t| ::
        c.space.t[i] == if from - k < i <= from then Pte(true, READ_WRITE, q[from - i]) else s.t[i]
    decreases from - page
  {
    if from >= page && q != [] {
      GrowTakes(s.(t := s.t[from := Pte(true, READ_WRITE, q[0])]), q[1..], from - 1, page);
    }
  }

  /** A fault on a page between the heap and the stack of a laid out process. */
  lemma GrowResult(s: Space, q: seq<nat>, page: nat)
    requires Layout(s) && page <= s.lowest
    ensures var c := Grow(s, q, s.lowest - 1, page); Grew(s, q, page, c.space, c.queue, c.ok)
  {
    GrowTakes(s, q, s.lowest - 1, page);
  }

  /** A run of pages to map. */
  datatype Segment = Segment(lo: nat, n: nat)

  ghost function MapSegments(s: Space, q: seq<nat>, segments: seq<Segment>): Change
    decreases |segments|
  {
    if segments == [] then Change(s, q, true)
    else
      var c := MapPages(s, q, segments[0].lo, segments[0].n, READ_WRITE);
      if c.ok then MapSegments(c.space, c.queue, segments[1..]) else c
  }

  ghost predicate Apart(a: Segment, b: Segment) {
    a.lo + a.n <= b.lo || b.lo + b.n <= a.lo
  }

  /** The segments can be mapped in turn: inside the table, on blank pages, disjoint. */
  ghost predicate Mappable(t: seq<Pte>, segments: seq<Segment>) {
    (forall k, i | 0 <= k < |segments| && segments[k].lo <= i < segments[k].lo + segments[k].n ::
      i < |t| && !t[i].valid)
    && (forall k | 0 <= k < |segments| :: segments[k].lo + segments[k].n <= |t|)
    && (forall j, k | 0 <= j < k < |segments| :: Apart(segments[j], segments[k]))
  }

  /** Text from page 0, data right behind it, the stack at the top. */
  function Segments(pages: nat, text: nat, data: nat, stack: nat): seq<Segment>
    requires stack <= pages
  {
    [Segment(0, text), Segment(text, data), Segment(pages - stack, stack)]
  }

  /** LoadProgram's page table work for a program whose text starts at page 0 with its data
      right behind it. A program that does not fit is refused before anything changes. */
  ghost function Load(s: Space, q: seq<nat>, text: nat, data: nat, stack: nat): Change {
    if stack + text + data >= |s.t| then Change(s, q, false)
    else
      var freed := UnmapPages(s, q, 0, |s.t|);
      var c := MapSegments(freed.space, freed.queue, Segments(|s.t|, text, data, stack));
      if !c.ok then c else
      Change(Space(Protected(c.space.t, 0, text, READ_EXEC), text + data, |s.t| - stack), c.queue, true)
  }

  /** The frames that loading can use: the free ones and then those of the pages that were mapped. */
  ghost function FramesAfter(s: Space, q: seq<nat>): seq<nat> {
    q + ValidPfns(s.t)
  }

  /** The pages of a new program that get a frame: all of them, or, when the frames run out, those of the
      segments before the one that does not fit. */
  function Mapped(text: nat, data: nat, stack: nat, frames: nat): nat {
    if text + data + stack <= frames then text + data + stack
    else if text + data <= frames then text + data
    else if text <= frames then text
    else 0
  }

  /** What loading a program comes to. A program that leaves no blank page is refused before anything
      changes. Otherwise every old page is released; text and data from page 0 on, and the stack at the top,
      take the oldest frames in this order, and every other page is blank. A loaded program can execute its
      text and not write it, and read and write its data and its stack and not execute them. */
  ghost predicate Loaded(s: Space, q: seq<nat>, text: nat, data: nat, stack: nat, s': Space, q': seq<nat>, ok: bool) {
    var r, n := FramesAfter(s, q), |s.t|;
    var k := Mapped(text, data, stack, |r|);
    ok == (text + data + stack < n && text + data + stack <= |r|)
    && if text + data + stack >= n then s' == s && q' == q else
      |s'.t| == n && q' == r[k..]
      && s'.brk == (if ok then text + data else s.brk) && s'.lowest == (if ok then n - stack else s.lowest)
      && (forall i | 0 <= i < n && i < text + data && i < k ::
            s'.t[i] == Pte(true, if ok && i < text then READ_EXEC else READ_WRITE, r[i]))
      && (forall i | n - stack <= i < n && ok :: s'.t[i] == Pte(true, READ_WRITE, r[text + data + i - (n - stack)]))
      && forall i | 0 <= i < n && !(i < text + data && i < k) && !(ok && n - stack <= i) :: !s'.t[i].valid
  }

  /** The pages below `k` have the oldest frames, the others are blank. */
  ghost predicate MappedBelow(t: seq<Pte>, n: nat, r: seq<nat>, k: nat) {
    |t| == n && k <= n && k <= |r| && (forall i | 0 <= i < k :: t[i] == Pte(true, READ_WRITE, r[i]))
    && forall i | k <= i < n :: !t[i].valid
  }

  /** One more segment of `m` pages behind the first `k`. */
  lemma MapsOnTop(s: Space, r: seq<nat>, k: nat, m: nat)
    requires MappedBelow(s.t, |s.t|, r, k) && k + m <= |s.t|
    ensures var c := MapPages(s, r[k..], k, m, READ_WRITE);
      c.ok == (k + m <= |r|) && c.space == s.(t := c.space.t)
      && MappedBelow(c.space.t, |s.t|, r, if c.ok then k + m else k) && c.queue == if c.ok then r[k + m..] else r[k..]
  {
    SkipsTwice(r, k, m);
  }

  lemma SkipsTwice(r: seq<nat>, a: nat, b: nat)
    requires a <= |r|
    ensures |r[a..]| == |r| - a && (a + b <= |r| ==> r[a..][b..] == r[a + b..])
  {
  }

  /** The stack at the top, behind the first `k` pages. */
  lemma MapsStack(s: Space, r: seq<nat>, k: nat, stack: nat)
    requires MappedBelow(s.t, |s.t|, r, k) && k + stack < |s.t|
    ensures var n := |s.t|; var lo := n - stack; var c := MapPages(s, r[k..], lo, stack, READ_WRITE);
      c.ok == (k + stack <= |r|) && c.space == s.(t := c.space.t) && |c.space.t| == n
      && c.queue == (if c.ok then r[k + stack..] else r[k..])
      && (forall i | 0 <= i < k :: c.space.t[i] == s.t[i])
      && (forall i | lo <= i < n && c.ok :: c.space.t[i] == Pte(true, READ_WRITE, r[k + i - lo]))
      && forall i | k <= i < n && !(c.ok && lo <= i) :: !c.space.t[i].valid
  {
    SkipsTwice(r, k, stack);
  }

  /** What the three mappings of a load come to on a blank table. */
  ghost predicate ThreeMapped(s: Space, r: seq<nat>, text: nat, data: nat, stack: nat, c: Change) {
    var k, n := Mapped(text, data, stack, |r|), |s.t|;
    c.ok == (text + data + stack <= |r|) && c.queue == r[k..] && c.space == s.(t := c.space.t) && |c.space.t| == n
    && (forall i | 0 <= i < n && i < text + data && i < k :: c.space.t[i] == Pte(true, READ_WRITE, r[i]))
    && (forall i | n - stack <= i < n && 0 <= i && c.ok :: c.space.t[i] == Pte(true, READ_WRITE, r[text + data + i - (n - stack)]))
    && forall i | 0 <= i < n && !(i < text + data && i < k) && !(c.ok && n - stack <= i) :: !c.space.t[i].valid
  }

  lemma TwoAndStack(s: Space, r: seq<nat>, text: nat, data: nat, stack: nat, c2: Change, c: Change)
    requires text + data + stack < |s.t| && MappedBelow(c2.space.t, |s.t|, r, text + data)
    requires c2.space == s.(t := c2.space.t) && c2.queue == r[text + data..]
    requires c == MapPages(c2.space, c2.queue, |s.t| - stack, stack, READ_WRITE)
    ensures ThreeMapped(s, r, text, data, stack, c)
  {
    MapsStack(c2.space, r, text + data, stack);
  }

  lemma ThreeMappings(s: Space, r: seq<nat>, text: nat, data: nat, stack: nat)
    requires text + data + stack < |s.t| && forall i | 0 <= i < |s.t| :: !s.t[i].valid
    ensures ThreeMapped(s, r, text, data, stack, MapSegments(s, r, Segments(|s.t|, text, data, stack)))
  {
    var lo := |s.t| - stack;
    MapOneByOne(s, r, Segment(0, text), [Segment(text, data), Segment(lo, stack)]);
    assert r[0..] == r;
    MapsOnTop(s, r, 0, text);
    var c1 := MapPages(s, r, 0, text, READ_WRITE);
    if c1.ok {
      MapOneByOne(c1.space, c1.queue, Segment(text, data), [Segment(lo, stack)]);
      MapsOnTop(c1.space, r, text, data);
      var c2 := MapPages(c1.space, c1.queue, text, data, READ_WRITE);
      if c2.ok {
        MapOneByOne(c2.space, c2.queue, Segment(lo, stack), []);
        TwoAndStack(s, r, text, data, stack, c2, MapPages(c2.space, c2.queue, lo, stack, READ_WRITE));
      }
    }
  }

  lemma MapOneByOne(s: Space, q: seq<nat>, first: Segment, rest: seq<Segment>)
    ensures var c := MapPages(s, q, first.lo, first.n, READ_WRITE);
      MapSegments(s, q, [first] + rest) == if c.ok then MapSegments(c.space, c.queue, rest) else c
    ensures rest == [] ==> [first] + rest == [first]
    ensures |rest| == 1 ==> [first] + rest == [first, rest[0]]
    ensures |rest| == 2 ==> [first] + rest == [first, rest[0], rest[1]]
  {
    assert ([first] + rest)[1..] == rest;
  }

  lemma LoadResult(s: Space, q: seq<nat>, text: nat, data: nat, stack: nat)
    ensures var c := Load(s, q, text, data, stack); Loaded(s, q, text, data, stack, c.space, c.queue, c.ok)
  {
    if text + data + stack < |s.t| {
      var freed := UnmapPages(s, q, 0, |s.t|);
      assert s.t[0..|s.t|] == s.t;
      ThreeMappings(freed.space, freed.queue, text, data, stack);
    }
  }

  ghost function Protected(t: seq<Pte>, lo: nat, n: nat, prot: Prot): (r: seq<Pte>)
    ensures |r| == |t|
    ensures forall i | 0 <= i < |t| :: r[i] == if lo <= i < lo + n then t[i].(prot := prot) else t[i]
  {
    seq(|t|, i requires 0 <= i < |t| => if lo <= i < lo + n then t[i].(prot := prot) else t[i])
  }

  /** A successful brk, and a refused or rolled back one, keep the layout. */
  lemma BrkKeepsLayout(s: Space, q: seq<nat>, page: nat)
    requires Layout(s)
    ensures Layout(Brk(s, q, page).space)
    ensures Readable(s.t) ==> Readable(Brk(s, q, page).space.t)
  {
  }

  /** While the stack grows the pages from `from` up are the stack so far; reaching `page`
      gives a proper layout again, with the new bottom recorded. */
  lemma {:induction false} GrowKeepsLayout(s: Space, q: seq<nat>, from: int, page: nat)
    requires 0 <= s.brk < page <= s.lowest <= |s.t| && page - 1 <= from < s.lowest
    requires forall i | 0 <= i < |s.t| :: s.t[i].valid <==> i < s.brk || from < i
    ensures var c := Grow(s, q, from, page);
      |c.space.t| == |s.t| && (c.ok ==> Layout(c.space) && c.space.lowest == page && c.space.brk == s.brk)
    ensures Readable(s.t) ==> Readable(Grow(s, q, from, page).space.t)
    decreases from - page
  {
    if from >= page && q != [] {
      GrowKeepsLayout(s.(t := s.t[from := Pte(true, READ_WRITE, q[0])]), q[1..], from - 1, page);
    }
  }

  ghost function Pages(segments: seq<Segment>): nat {
    if segments == [] then 0 else segments[0].n + Pages(segments[1..])
  }

  ghost predicate Covers(segments: seq<Segment>, i: int) {
    exists k :: 0 <= k < |segments| && segments[k].lo <= i < segments[k].lo + segments[k].n
  }

  lemma CoversStep(segments: seq<Segment>, i: nat)
    requires segments != []
    ensures Covers(segments, i) <==>
      Covers(segments[1..], i) || segments[0].lo <= i < segments[0].lo + segments[0].n
  {
    var rest := segments[1..];
    if Covers(segments, i) {
      var k :| 0 <= k < |segments| && segments[k].lo <= i < segments[k].lo + segments[k].n;
      assert k > 0 ==> rest[k - 1] == segments[k];
    }
    if Covers(rest, i) {
      var k :| 0 <= k < |rest| && rest[k].lo <= i < rest[k].lo + rest[k].n;
      assert segments[k + 1] == rest[k];
    }
  }

  /** Mapping succeeds exactly when the frames suffice, and then the valid pages are the old
      ones and those of the segments. */
  lemma {:induction false} MapSegmentsResult(s: Space, q: seq<nat>, segments: seq<Segment>)
    requires Mappable(s.t, segments)
    ensures var c := MapSegments(s, q, segments);
      |c.space.t| == |s.t| && (c.ok <==> Pages(segments) <= |q|) && (Readable(s.t) ==> Readable(c.space.t))
      && (c.ok ==> forall i | 0 <= i < |s.t| :: c.space.t[i].valid <==> s.t[i].valid || Covers(segments, i))
    decreases |segments|
  {
    if segments != [] {
      var c := MapPages(s, q, segments[0].lo, segments[0].n, READ_WRITE);
      var rest := segments[1..];
      if c.ok {
        MappableStep(s, q, segments);
        MapSegmentsResult(c.space, c.queue, rest);
        forall i | 0 <= i < |s.t|
          ensures Covers(segments, i) <==> Covers(rest, i) || segments[0].lo <= i < segments[0].lo + segments[0].n
        {
          CoversStep(segments, i);
        }
      }
    }
  }

  /** Successful mappings take the oldest frames, one per page. */
  lemma {:induction false} MapSegmentsTake(s: Space, q: seq<nat>, segments: seq<Segment>)
    ensures var c := MapSegments(s, q, segments);
      c.ok ==> Pages(segments) <= |q| && c.queue == q[Pages(segments)..]
    decreases |segments|
  {
    if segments == [] {
      assert q[0..] == q;
    } else {
      var c := MapPages(s, q, segments[0].lo, segments[0].n, READ_WRITE);
      if c.ok {
        MapSegmentsTake(c.space, c.queue, segments[1..]);
        if MapSegments(c.space, c.queue, segments[1..]).ok {
          assert c.queue[Pages(segments[1..])..] == q[Pages(segments)..];
        }
      }
    }
  }

  lemma MappableStep(s: Space, q: seq<nat>, segments: seq<Segment>)
    requires Mappable(s.t, segments) && segments != [] && segments[0].n <= |q|
    ensures Mappable(MapPages(s, q, segments[0].lo, segments[0].n, READ_WRITE).space.t, segments[1..])
  {
    var t, rest := MapPages(s, q, segments[0].lo, segments[0].n, READ_WRITE).space.t, segments[1..];
    assert forall k | 0 <= k < |rest| :: rest[k] == segments[k + 1] && Apart(segments[0], rest[k]);
  }

  /** A kernel stack table that maps its pages to `frames` in order. */
  ghost function StackTable(frames: seq<nat>): (t: seq<Pte>)
    ensures |t| == |frames| && forall i | 0 <= i < |t| :: t[i] == Pte(true, READ_WRITE, frames[i])
  {
    seq(|frames|, i requires 0 <= i < |frames| => Pte(true, READ_WRITE, frames[i]))
  }

  /** Whether the free frames suffice for the child of a process: its kernel stack and its pages. */
  ghost predicate CanFork(s: Space, q: seq<nat>, stackPages: nat) {
    stackPages + |ValidPfns(s.t)| <= |q|
  }

  /** The free queue after the memory half of a fork. The kernel stack takes the oldest frames, region 1
      the next ones. When the pages do not fit, the frames of the kernel stack do not come back. */
  ghost function ForkQueue(s: Space, q: seq<nat>, stackPages: nat): seq<nat> {
    if |q| < stackPages then q
    else if !CanFork(s, q, stackPages) then q[stackPages..]
    else q[stackPages + |ValidPfns(s.t)|..]
  }

  /** What the functions of a fork come to: it succeeds exactly when the kernel stack and the pages find
      frames; the child has the parent's bounds and protections, and its pages are on the frames behind
      those of its kernel stack, in page order. */
  lemma ForkResult(s: Space, q: seq<nat>, stackPages: nat)
    ensures CanFork(s, q, stackPages) <==> stackPages + |ValidPfns(s.t)| <= |q|
    ensures ForkQueue(s, q, stackPages) ==
      q[(if stackPages <= |q| then stackPages else 0) + if stackPages + |ValidPfns(s.t)| <= |q| then |ValidPfns(s.t)| else 0..]
    ensures CanFork(s, q, stackPages) ==>
      var child := ChildSpace(s, q, stackPages);
      child.brk == s.brk && child.lowest == s.lowest && |child.t| == |s.t|
      && forall i | 0 <= i < |s.t| ::
        if s.t[i].valid then
          |ValidPfns(s.t[..i])| < |ValidPfns(s.t)|
          && child.t[i] == Pte(true, s.t[i].prot, q[stackPages + |ValidPfns(s.t[..i])|])
        else !child.t[i].valid
  {
    assert |q| < stackPages ==> q[0..] == q;
    forall i | 0 <= i < |s.t| && s.t[i].valid ensures |ValidPfns(s.t[..i])| < |ValidPfns(s.t)| {
      ValidPfnsAt(s.t, i);
    }
  }

  /** The child has the parent's bounds and its own copy of every page. */
  ghost function ChildSpace(s: Space, q: seq<nat>, stackPages: nat): Space
    requires CanFork(s, q, stackPages)
  {
    s.(t := ChildTable(s.t, q[stackPages..]))
  }

  /** The free queue after an exit: the frames of region 1 and then those of the kernel stack at the back. */
  ghost function ExitQueue(q: seq<nat>, region1: seq<Pte>, stack: seq<Pte>): seq<nat> {
    q + ValidPfns(region1) + ValidPfns(stack)
  }

  lemma SegmentsCover(pages: nat, text: nat, data: nat, stack: nat, i: nat)
    requires stack + text + data < pages && i < pages
    ensures Covers(Segments(pages, text, data, stack), i) <==> i < text + data || pages - stack <= i
  {
    var segments := Segments(pages, text, data, stack);
    if i < text {
      assert segments[0].lo <= i < segments[0].lo + segments[0].n;
    } else if i < text + data {
      assert segments[1].lo <= i < segments[1].lo + segments[1].n;
    } else if pages - stack <= i {
      assert segments[2].lo <= i < segments[2].lo + segments[2].n;
    }
  }

  lemma SegmentsPages(pages: nat, text: nat, data: nat, stack: nat)
    requires stack <= pages
    ensures Pages(Segments(pages, text, data, stack)) == text + data + stack
  {
    var segments := Segments(pages, text, data, stack);
    var two := segments[1..];
    var one := two[1..];
    assert one[0] == segments[2] && one[1..] == [];
    assert Pages(one) == stack;
    assert two[0] == segments[1] && Pages(two) == data + stack;
  }

  /** What LoadProgram does once the program is known to fit. */
  lemma LoadSteps(s: Space, q: seq<nat>, text: nat, data: nat, stack: nat)
    requires stack + text + data < |s.t|
    ensures var freed := UnmapPages(s, q, 0, |s.t|);
      var segments := Segments(|s.t|, text, data, stack);
      var c := MapSegments(freed.space, freed.queue, segments);
      Mappable(freed.space.t, segments) && |c.space.t| == |s.t|
      && (Readable(s.t) ==> Readable(c.space.t))
      && (c.ok <==> text + data + stack <= |freed.queue|)
      && (c.ok ==> forall i | 0 <= i < |s.t| :: c.space.t[i].valid <==> i < text + data || |s.t| - stack <= i)
  {
    var freed, segments := UnmapPages(s, q, 0, |s.t|), Segments(|s.t|, text, data, stack);
    assert Mappable(freed.space.t, segments);
    MapSegmentsResult(freed.space, freed.queue, segments);
    SegmentsPages(|s.t|, text, data, stack);
    forall i | 0 <= i < |s.t| ensures Covers(segments, i) <==> i < text + data || |s.t| - stack <= i {
      SegmentsCover(|s.t|, text, data, stack, i);
    }
  }

  /** A loaded program has the layout whatever was mapped before; loading succeeds exactly
      when it leaves a blank page and the free frames and the old ones suffice. */
  lemma LoadMakesLayout(s: Space, q: seq<nat>, text: nat, data: nat, stack: nat)
    ensures var c := Load(s, q, text, data, stack);
      |c.space.t| == |s.t| && (Readable(s.t) ==> Readable(c.space.t)) && (c.ok ==> Layout(c.space))
    ensures Load(s, q, text, data, stack).ok <==>
      stack + text + data < |s.t| && text + data + stack <= |q| + |ValidPfns(s.t)|
    ensures var c := Load(s, q, text, data, stack);
      c.ok ==>
        c.queue == (q + ValidPfns(s.t))[text + data + stack..]
        && c.space.brk == text + data && c.space.lowest == |s.t| - stack
  {
    if stack + text + data < |s.t| {
      LoadSteps(s, q, text, data, stack);
      assert s.t[0..|s.t|] == s.t;
      var freed := UnmapPages(s, q, 0, |s.t|);
      MapSegmentsTake(freed.space, freed.queue, Segments(|s.t|, text, data, stack));
      SegmentsPages(|s.t|, text, data, stack);
    }
  }
}
