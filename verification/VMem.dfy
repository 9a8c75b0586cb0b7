/** Mapping and unmapping the pages of a page table, with rollback. */
module VMem {
  import opened Hardware
  import opened PMem

  /** Frame numbers of the valid entries, lowest page first. */
  ghost function ValidPfns(t: seq<Pte>): seq<nat> {
    if t == [] then []
    else ValidPfns(t[..|t| - 1]) + if t[|t| - 1].valid then [t[|t| - 1].pfn] else []
  }

  /** The table after pages lo..hi have been marked invalid. */
  ghost function Cleared(t: seq<Pte>, lo: nat, hi: nat): (r: seq<Pte>)
    ensures |r| == |t|
    ensures forall i | 0 <= i < |t| :: r[i] == if lo <= i < hi then t[i].(valid := false) else t[i]
  {
    seq(|t|, i requires 0 <= i < |t| => if lo <= i < hi then t[i].(valid := false) else t[i])
  }

  lemma ClearedStep(t: seq<Pte>, lo: nat, hi: nat)
    requires lo <= hi < |t|
    ensures Cleared(t, lo, hi)[hi] == t[hi]
    ensures Cleared(t, lo, hi + 1) == Cleared(t, lo, hi)[hi := t[hi].(valid := false)]
  {
  }

  /** The table after pages lo, lo+1, ... have been mapped to `frames` in order. */
  ghost function Filled(t: seq<Pte>, lo: nat, frames: seq<nat>, prot: Prot): (r: seq<Pte>)
    ensures |r| == |t|
    ensures forall i | 0 <= i < |t| :: r[i] == if lo <= i < lo + |frames| then Pte(true, prot, frames[i - lo]) else t[i]
  {
    seq(|t|, i requires 0 <= i < |t| => if lo <= i < lo + |frames| then Pte(true, prot, frames[i - lo]) else t[i])
  }

  /** The valid entries of `t` name existing frames, all different and none of them free. */
  ghost predicate Releasable(t: seq<Pte>, queue: seq<nat>, frames: nat) {
    Distinct(queue + ValidPfns(t)) && Below(ValidPfns(t), frames)
  }

  /** Each valid entry of `t` names an existing frame that is not free and that no other
      valid entry of `t` names. */
  ghost predicate Private(t: seq<Pte>, queue: seq<nat>, frames: nat) {
    (forall i | 0 <= i < |t| && t[i].valid :: t[i].pfn < frames && t[i].pfn !in queue)
    && (forall i, j | 0 <= i < j < |t| && t[i].valid && t[j].valid :: t[i].pfn != t[j].pfn)
  }

  lemma ValidPfnsStep(t: seq<Pte>, i: nat)
    requires i < |t|
    ensures ValidPfns(t[..i + 1]) == ValidPfns(t[..i]) + if t[i].valid then [t[i].pfn] else []
  {
    assert t[..i + 1][..i] == t[..i];
  }

  lemma {:induction false} ValidPfnsPrefix(t: seq<Pte>, i: nat)
    requires i <= |t|
    ensures ValidPfns(t[..i]) <= ValidPfns(t)
    decreases |t| - i
  {
    if i == |t| {
      assert t[..i] == t;
    } else {
      ValidPfnsStep(t, i);
      ValidPfnsPrefix(t, i + 1);
    }
  }

  /** Where the frame of entry `i` sits among the valid frames. */
  lemma ValidPfnsAt(t: seq<Pte>, i: nat)
    requires i < |t| && t[i].valid
    ensures |ValidPfns(t[..i])| < |ValidPfns(t)| && ValidPfns(t)[|ValidPfns(t[..i])|] == t[i].pfn
  {
    ValidPfnsStep(t, i);
    ValidPfnsPrefix(t, i + 1);
  }

  lemma ValidPfnsOrder(t: seq<Pte>, i: nat, j: nat)
    requires i < j < |t| && t[i].valid && t[j].valid
    ensures |ValidPfns(t[..i])| < |ValidPfns(t[..j])| < |ValidPfns(t)|
  {
    ValidPfnsAt(t, j);
    ValidPfnsStep(t, i);
    ValidPfnsPrefix(t[..j], i + 1);
    assert t[..j][..i + 1] == t[..i + 1];
  }

  lemma {:induction false} ValidPfnsMember(t: seq<Pte>, k: nat) returns (i: nat)
    requires k < |ValidPfns(t)|
    ensures i < |t| && t[i].valid && t[i].pfn == ValidPfns(t)[k] && |ValidPfns(t[..i])| == k
  {
    var n := |t| - 1;
    if k < |ValidPfns(t[..n])| {
      i := ValidPfnsMember(t[..n], k);
      assert t[..n][..i] == t[..i];
    } else {
      i := n;
    }
  }

  lemma {:induction false} ValidPfnsAll(t: seq<Pte>)
    requires forall i | 0 <= i < |t| :: t[i].valid
    ensures |ValidPfns(t)| == |t| && forall i | 0 <= i < |t| :: ValidPfns(t)[i] == t[i].pfn
  {
    if t != [] {
      ValidPfnsAll(t[..|t| - 1]);
    }
  }

  lemma {:induction false} ValidPfnsNone(t: seq<Pte>)
    requires forall i | 0 <= i < |t| :: !t[i].valid
    ensures ValidPfns(t) == []
  {
    if t != [] {
      ValidPfnsNone(t[..|t| - 1]);
    }
  }

  lemma PrivateReleasable(t: seq<Pte>, q: seq<nat>, frames: nat, lo: nat, hi: nat)
    requires Private(t, q, frames) && Distinct(q) && lo <= hi <= |t|
    ensures Releasable(t[lo..hi], q, frames)
  {
    var mid := t[lo..hi];
    var v := ValidPfns(mid);
    forall k | 0 <= k < |v| ensures v[k] < frames && v[k] !in q {
      var i := ValidPfnsMember(mid, k);
    }
    forall k, l | 0 <= k < l < |v| ensures v[k] != v[l] {
      var i := ValidPfnsMember(mid, k);
      var j := ValidPfnsMember(mid, l);
    }
  }

  /** Releasing entry `i` next is legal, and the queue then ends with its frame. */
  lemma ReleaseNext(t: seq<Pte>, q: seq<nat>, frames: nat, i: nat)
    requires Releasable(t, q, frames) && i < |t| && t[i].valid
    ensures t[i].pfn !in q + ValidPfns(t[..i]) && t[i].pfn < frames
    ensures q + ValidPfns(t[..i + 1]) == q + ValidPfns(t[..i]) + [t[i].pfn]
  {
    ValidPfnsStep(t, i);
    ValidPfnsPrefix(t, i + 1);
    var all, done := q + ValidPfns(t), q + ValidPfns(t[..i]);
    assert all[|done|] == t[i].pfn;
    assert forall k | 0 <= k < |done| :: done[k] == all[k];
  }

  /** Releases the frame of one valid entry and marks the entry invalid. */
  method ReleaseEntry(fl: FrameList, t: array<Pte>, i: nat)
    requires fl.Valid() && i < t.Length && t[i].pfn < fl.m.ram.Length && t[i].pfn !in fl.queue
    modifies fl, fl.m`tlb, fl.m.ram, fl.m.ptbr1, t
    ensures fl.Valid() && fl.queue == old(fl.queue) + [old(t[i].pfn)]
    ensures t[..] == old(t[..])[i := old(t[i]).(valid := false)]
    ensures t != fl.m.ptbr1 ==> fl.m.ptbr1[..] == old(fl.m.ptbr1[..])
    ensures Untouched(old(fl.m.ram[..]), fl.m.ram[..], fl.queue)
    ensures Within(fl.m.tlb, old(fl.m.tlb))
  {
    fl.ReleaseUsedFrame(t[i].pfn);
    assert t[..] == old(t[..]);
    t[i] := t[i].(valid := false);
  }

  /** The loop of UnmapRegion1Pages. */
  method ReleaseRange(fl: FrameList, t: array<Pte>, start: nat, num: nat)
    requires fl.Valid() && start + num <= t.Length
    requires forall i | start <= i < start + num :: t[i].valid
    requires Releasable(t[start..start + num], fl.queue, fl.m.ram.Length)
    modifies fl, fl.m`tlb, fl.m.ram, fl.m.ptbr1, t
    ensures fl.Valid() && fl.queue == old(fl.queue) + ValidPfns(old(t[start..start + num]))
    ensures t[..] == Cleared(old(t[..]), start, start + num)
    ensures t != fl.m.ptbr1 ==> fl.m.ptbr1[..] == old(fl.m.ptbr1[..])
    ensures Untouched(old(fl.m.ram[..]), fl.m.ram[..], fl.queue)
    ensures Within(fl.m.tlb, old(fl.m.tlb))
  {
    ghost var was, all, q := t[start..start + num], t[..], fl.queue;
    var k := 0;
    while k < num
      invariant 0 <= k <= num
      invariant fl.Valid() && fl.queue == q + ValidPfns(was[..k])
      invariant t[..] == Cleared(all, start, start + k)
      invariant t != fl.m.ptbr1 ==> fl.m.ptbr1[..] == old(fl.m.ptbr1[..])
      invariant Untouched(old(fl.m.ram[..]), fl.m.ram[..], fl.queue)
      invariant Within(fl.m.tlb, old(fl.m.tlb))
    {
      ghost var before, ram1 := fl.queue, fl.m.ram[..];
      ClearedStep(all, start, start + k);
      assert t[..][start + k] == was[k];
      ReleaseNext(was, q, fl.m.ram.Length, k);
      ReleaseEntry(fl, t, start + k);
      UntouchedTrans(old(fl.m.ram[..]), ram1, fl.m.ram[..], before, fl.queue);
      k := k + 1;
    }
    assert was[..num] == was;
  }

  method UnmapRegion1Pages(fl: FrameList, t: array<Pte>, start: nat, num: nat)
    requires fl.Valid() && start + num <= t.Length
    requires forall i | start <= i < start + num :: t[i].valid
    requires Private(t[..], fl.queue, fl.m.ram.Length)
    modifies fl, fl.m`tlb, fl.m.ram, fl.m.ptbr1, t
    ensures fl.Valid() && fl.queue == old(fl.queue) + ValidPfns(old(t[start..start + num]))
    ensures t[..] == Cleared(old(t[..]), start, start + num)
    ensures t != fl.m.ptbr1 ==> fl.m.ptbr1[..] == old(fl.m.ptbr1[..])
    ensures Untouched(old(fl.m.ram[..]), fl.m.ram[..], fl.queue)
    ensures Within(fl.m.tlb, old(fl.m.tlb))
  {
    assert Releasable(t[start..start + num], fl.queue, fl.m.ram.Length) by {
      assert Look(0);
      PrivateReleasable(t[..], fl.queue, fl.m.ram.Length, start, start + num);
      assert t[..][start..start + num] == t[start..start + num];
    }
    ReleaseRange(fl, t, start, num);
  }

  /** Maps `num` pages to the oldest free frames. If memory runs out the pages already
      mapped are released again, which puts the free queue back exactly as it was. */
  method MapNewRegion1Pages(fl: FrameList, t: array<Pte>, start: nat, num: nat, prot: Prot) returns (ok: bool)
    requires fl.Valid() && start + num <= t.Length
    requires forall i | start <= i < start + num :: !t[i].valid
    modifies fl, fl.m`tlb, fl.m.ram, fl.m.ptbr1, t
    ensures fl.Valid() && ok == (num <= |old(fl.queue)|)
    ensures ok ==> fl.queue == old(fl.queue)[num..] && fl.m.ram[..] == old(fl.m.ram[..])
    ensures ok ==> t[..] == Filled(old(t[..]), start, old(fl.queue)[..num], prot)
    ensures !ok ==> fl.queue == old(fl.queue)
    ensures !ok ==> t[..] == Cleared(Filled(old(t[..]), start, old(fl.queue), prot), start, start + |old(fl.queue)|)
    ensures t != fl.m.ptbr1 ==> fl.m.ptbr1[..] == old(fl.m.ptbr1[..])
    ensures Untouched(old(fl.m.ram[..]), fl.m.ram[..], old(fl.queue))
    ensures Within(fl.m.tlb, old(fl.m.tlb))
  {
    ghost var q, all := fl.queue, t[..];
    assert Distinct(q) && Below(q, fl.m.ram.Length) by {
      assert Look(0);
    }
    var page := start;
    while page < start + num
      invariant start <= page <= start + num && page - start <= |q|
      invariant fl.Valid() && fl.queue == q[page - start..] && fl.m.ram[..] == old(fl.m.ram[..])
      invariant t[..] == Filled(all, start, q[..page - start], prot)
      invariant t != fl.m.ptbr1 ==> fl.m.ptbr1[..] == old(fl.m.ptbr1[..])
      invariant Within(fl.m.tlb, old(fl.m.tlb))
    {
      var found := fl.GetUnusedFrame(t, page);
      if !found {
        assert q[..page - start] == q;
        RollBack(fl, t, start, page - start, all, q, prot);
        return false;
      }
      t[page] := Pte(true, prot, t[page].pfn);
      assert t[..] == Filled(all, start, q[..page + 1 - start], prot);
      page := page + 1;
    }
    return true;
  }

  /** The failure path of MapNewRegion1Pages: the whole free queue `q` has been mapped
      and goes back in the order it was taken. */
  method RollBack(fl: FrameList, t: array<Pte>, start: nat, num: nat,
                  ghost all: seq<Pte>, ghost q: seq<nat>, ghost prot: Prot)
    requires fl.Valid() && fl.queue == [] && num == |q| && start + num <= t.Length == |all|
    requires t[..] == Filled(all, start, q, prot) && Distinct(q) && Below(q, fl.m.ram.Length)
    modifies fl, fl.m`tlb, fl.m.ram, fl.m.ptbr1, t
    ensures fl.Valid() && fl.queue == q
    ensures t[..] == Cleared(Filled(all, start, q, prot), start, start + |q|)
    ensures t != fl.m.ptbr1 ==> fl.m.ptbr1[..] == old(fl.m.ptbr1[..])
    ensures Untouched(old(fl.m.ram[..]), fl.m.ram[..], fl.queue)
    ensures Within(fl.m.tlb, old(fl.m.tlb))
  {
    MappedPfns(all, start, q, prot);
    ghost var mid := t[..][start..start + num];
    assert t[start..start + num] == mid;
    assert Releasable(mid, [], fl.m.ram.Length) by {
      assert [] + ValidPfns(mid) == q;
    }
    ReleaseRange(fl, t, start, num);
  }

  /** The valid frames of a freshly mapped stretch are the frames it was mapped to. */
  lemma MappedPfns(t: seq<Pte>, lo: nat, frames: seq<nat>, prot: Prot)
    requires lo + |frames| <= |t|
    ensures ValidPfns(Filled(t, lo, frames, prot)[lo..lo + |frames|]) == frames
  {
    ValidPfnsAll(Filled(t, lo, frames, prot)[lo..lo + |frames|]);
  }

  /** Releases every frame the first `n` entries map, lowest page first. This is the loop
      of FreeRegion1PageTable and FreeRegion0StackPages (n is the whole table) and of
      the rollback in CopyRegion1PageTableAndData. */
  method FreePages(fl: FrameList, t: array<Pte>, n: nat)
    requires fl.Valid() && n <= t.Length && Private(t[..n], fl.queue, fl.m.ram.Length)
    modifies fl, fl.m`tlb, fl.m.ram, fl.m.ptbr1, t
    ensures fl.Valid() && fl.queue == old(fl.queue) + ValidPfns(old(t[..n]))
    ensures t[..] == Cleared(old(t[..]), 0, n)
    ensures t != fl.m.ptbr1 ==> fl.m.ptbr1[..] == old(fl.m.ptbr1[..])
    ensures Untouched(old(fl.m.ram[..]), fl.m.ram[..], fl.queue)
    ensures Within(fl.m.tlb, old(fl.m.tlb))
  {
    ghost var was, all, q := t[..n], t[..], fl.queue;
    assert Releasable(was, q, fl.m.ram.Length) by {
      assert Look(0);
      PrivateReleasable(was, q, fl.m.ram.Length, 0, n);
      assert was[0..n] == was;
    }
    var i := 0;
    while i < n
      invariant 0 <= i <= n
      invariant fl.Valid() && fl.queue == q + ValidPfns(was[..i])
      invariant t[..] == Cleared(all, 0, i)
      invariant t != fl.m.ptbr1 ==> fl.m.ptbr1[..] == old(fl.m.ptbr1[..])
      invariant Untouched(old(fl.m.ram[..]), fl.m.ram[..], fl.queue)
      invariant Within(fl.m.tlb, old(fl.m.tlb))
    {
      ghost var before, ram1 := fl.queue, fl.m.ram[..];
      ClearedStep(all, 0, i);
      assert t[..][i] == was[i];
      ValidPfnsStep(was, i);
      if t[i].valid {
        ReleaseNext(was, q, fl.m.ram.Length, i);
        ReleaseEntry(fl, t, i);
        UntouchedTrans(old(fl.m.ram[..]), ram1, fl.m.ram[..], before, fl.queue);
      }
      i := i + 1;
    }
    assert was[..n] == was;
  }

  method ChangeProtRegion1Pages(t: array<Pte>, start: nat, num: nat, prot: Prot)
    requires start + num <= t.Length
    requires forall i | start <= i < start + num :: t[i].valid
    modifies t
    ensures forall i | 0 <= i < t.Length ::
      t[i] == if start <= i < start + num then old(t[i]).(prot := prot) else old(t[i])
  {
    for page := start to start + num
      invariant forall i | 0 <= i < t.Length ::
        t[i] == if start <= i < page then old(t[i]).(prot := prot) else old(t[i])
    {
      t[page] := t[page].(prot := prot);
    }
  }
}
