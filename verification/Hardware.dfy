/** The machine the kernel runs on: physical memory, the two page tables the
    hardware walks, and a translation lookaside buffer (TLB).

    Every access the kernel makes goes through `Load` or `Store`. The TLB may
    drop entries whenever it likes, and an entry it keeps may be stale until it
    is flushed, so an access is only predictable once the kernel has flushed. */
module Hardware {

  /** Words in one page (PAGESIZE is 0x2000 bytes). */
  const PAGE_WORDS: nat := 2048

  /** A page table entry holds a 24-bit frame number. */
  const MAX_FRAMES: nat := 0x100_0000

  type Word = w: int | -0x8000_0000 <= w < 0x8000_0000

  type Frame = f: seq<Word> | |f| == PAGE_WORDS witness seq(PAGE_WORDS, _ => 0)

  datatype Prot = Prot(read: bool, write: bool, exec: bool)

  const READ_WRITE := Prot(true, true, false)
  const READ_EXEC := Prot(true, false, true)
  const WRITE_ONLY := Prot(false, true, false)

  datatype Pte = Pte(valid: bool, prot: Prot, pfn: nat)

  const BLANK_PTE := Pte(false, Prot(false, false, false), 0)

  type Tlb = map<nat, Pte>

  /** Every mapping in `a` is also in `b`. */
  ghost predicate Within(a: Tlb, b: Tlb) {
    forall v | v in a :: v in b && a[v] == b[v]
  }

  /** `a` is `b` after evictions and at most one refill of page `v` from the table. */
  ghost predicate Refilled(a: Tlb, b: Tlb, v: nat, pte: Pte) {
    forall u | u in a :: (u in b && a[u] == b[u]) || (u == v && a[u] == pte)
  }

  class Machine {
    const ram: array<Frame>
    /** Region 0 page table; its length is also the first page of region 1. */
    const ptbr0: array<Pte>
    /** Register REG_PTBR1. */
    var ptbr1: array<Pte>
    var tlb: Tlb

    constructor (frames: nat, regionZero: array<Pte>, regionOne: array<Pte>)
      ensures ram.Length == frames && fresh(ram)
      ensures ptbr0 == regionZero && ptbr1 == regionOne && tlb == map[]
    {
      ram := new Frame[frames](_ => seq(PAGE_WORDS, _ => 0));
      ptbr0, ptbr1, tlb := regionZero, regionOne, map[];
    }

    ghost predicate Wf()
      reads this
    {
      ram.Length <= MAX_FRAMES && ptbr0 != ptbr1 && ptbr1.Length >= 2
    }

    /** First page of region 1, the kernel's window onto physical memory. */
    function Window(): nat {
      ptbr0.Length
    }

    /** The entry the page tables hold for a virtual page. */
    function Entry(page: nat): Pte
      requires page < ptbr0.Length + ptbr1.Length
      reads this, ptbr0, ptbr1
    {
      if page < ptbr0.Length then ptbr0[page] else ptbr1[page - ptbr0.Length]
    }

    /** The TLB cannot disagree with the page tables about `page`. */
    ghost predicate Coherent(page: nat)
      reads this, ptbr0, ptbr1
    {
      page < ptbr0.Length + ptbr1.Length && (page in tlb ==> tlb[page] == Entry(page))
    }

    ghost predicate Usable(pte: Pte) {
      pte.valid && pte.pfn < ram.Length
    }

    /** Whatever entry the hardware picks for `page`, stale or not, an access does not fault. */
    ghost predicate Mapped(page: nat, write: bool)
      reads this, ptbr0, ptbr1
    {
      page < ptbr0.Length + ptbr1.Length
      && Usable(Entry(page)) && (if write then Entry(page).prot.write else Entry(page).prot.read)
      && (page in tlb ==> Usable(tlb[page]) && (if write then tlb[page].prot.write else tlb[page].prot.read))
    }

    /** Address translation: random evictions, then a hit, or a table walk and refill. */
    method Translate(page: nat) returns (pte: Pte)
      requires page < ptbr0.Length + ptbr1.Length
      modifies this`tlb
      ensures pte == Entry(page) || (page in old(tlb) && pte == old(tlb)[page])
      ensures Refilled(tlb, old(tlb), page, Entry(page))
    {
      var keep: set<nat> := *;
      tlb := map v | v in tlb && v in keep :: tlb[v];
      if page in tlb {
        pte := tlb[page];
      } else {
        pte := Entry(page);
        tlb := tlb[page := pte];
      }
    }

    method Load(page: nat, word: nat) returns (w: Word)
      requires word < PAGE_WORDS && Mapped(page, false)
      modifies this`tlb
      ensures old(Coherent(page)) ==> w == ram[Entry(page).pfn][word]
      ensures Refilled(tlb, old(tlb), page, Entry(page))
    {
      var pte := Translate(page);
      w := ram[pte.pfn][word];
    }

    method Store(page: nat, word: nat, w: Word)
      requires word < PAGE_WORDS && Mapped(page, true)
      modifies this`tlb, ram
      ensures old(Coherent(page)) ==>
        ram[..] == old(ram[..])[Entry(page).pfn := old(ram[Entry(page).pfn])[word := w]]
      ensures Refilled(tlb, old(tlb), page, Entry(page))
    {
      var pte := Translate(page);
      ram[pte.pfn] := ram[pte.pfn][word := w];
    }

    /** Write a virtual address in `page` to REG_TLB_FLUSH. */
    method FlushPage(page: nat)
      modifies this`tlb
      ensures page !in tlb && Within(tlb, old(tlb))
      ensures forall v | v != page && v in old(tlb) :: v in tlb
    {
      tlb := map v | v in tlb && v != page :: tlb[v];
    }

    /** Write TLB_FLUSH_1 to REG_TLB_FLUSH. */
    method FlushRegionOne()
      modifies this`tlb
      ensures (forall v | v in tlb :: v < Window()) && Within(tlb, old(tlb))
    {
      tlb := map v | v in tlb && v < Window() :: tlb[v];
    }

    /** Write TLB_FLUSH_ALL to REG_TLB_FLUSH. */
    method FlushAll()
      modifies this`tlb
      ensures tlb == map[]
    {
      tlb := map[];
    }

    method WritePtbr1(table: array<Pte>)
      modifies this`ptbr1
      ensures ptbr1 == table
    {
      ptbr1 := table;
    }
  }
}
