/** The general purpose list: doubly linked with a sentinel, and optionally indexed by id through a
    table of buckets whose collisions are chained. */
module List {
  datatype Option<T> = None | Some(value: T)

  datatype Item<T> = Item(id: nat, data: T)

  // ---- what the operations mean on the sequence of items ----

  /** The position of the first item with the id, or the length. */
  function IndexOf<T>(s: seq<Item<T>>, id: nat): (k: nat)
    ensures k <= |s| && (k < |s| ==> s[k].id == id) && forall j | 0 <= j < k :: s[j].id != id
  {
    if s == [] || s[0].id == id then 0 else 1 + IndexOf(s[1..], id)
  }

  function FindFirst<T>(s: seq<Item<T>>, id: nat): Option<T> {
    var k := IndexOf(s, id);
    if k < |s| then Some(s[k].data) else None
  }

  function RemoveFirst<T>(s: seq<Item<T>>, id: nat): seq<Item<T>> {
    var k := IndexOf(s, id);
    if k < |s| then Cut(s, k) else s
  }

  /** The position of the first item whose id is at most `bound`, or the length. */
  function FirstAtMost<T>(s: seq<Item<T>>, bound: nat): (k: nat)
    ensures k <= |s| && (k < |s| ==> s[k].id <= bound) && forall j | 0 <= j < k :: s[j].id > bound
  {
    if s == [] || s[0].id <= bound then 0 else 1 + FirstAtMost(s[1..], bound)
  }

  /** The items whose ids are not `gone`, in order. */
  function Keep<T>(s: seq<Item<T>>, gone: nat -> bool): seq<Item<T>> {
    if s == [] then [] else (if gone(s[0].id) then [] else [s[0]]) + Keep(s[1..], gone)
  }

  // ---- sequences without repetition ----

  ghost predicate NoRepeats<A>(c: seq<A>) {
    forall i, j | 0 <= i < j < |c| :: c[i] != c[j]
  }

  function Cut<A>(c: seq<A>, k: nat): seq<A>
    requires k < |c|
  {
    c[..k] + c[k + 1..]
  }

  lemma CutIsWithout<A>(c: seq<A>, k: nat)
    requires NoRepeats(c) && k < |c|
    ensures var d := Cut(c, k);
      |d| == |c| - 1 && (forall i | 0 <= i < |d| :: d[i] == if i < k then c[i] else c[i + 1])
      && NoRepeats(d) && c[k] !in d && (forall n | n in c && n != c[k] :: n in d) && (forall n | n in d :: n in c)
  {
    assert c == c[..k] + [c[k]] + c[k + 1..];
  }

  /** Keeps an invariant folded: a proof that needs to look inside mentions `Look(0)`. */
  ghost predicate Look(k: nat) {
    true
  }

  class Node<T> {
    var next: Node?<T>
    var prev: Node?<T>
    var hashNext: Node?<T>
    const id: nat
    const data: Option<T>

    constructor (id: nat, data: Option<T>)
      ensures this.id == id && this.data == data && next == null && prev == null && hashNext == null
    {
      this.id, this.data := id, data;
      next, prev, hashNext := null, null, null;
    }
  }

  class List<T> {
    const sentinel: Node<T>
    var head: Node<T>
    const table: array<Node?<T>>
    ghost var nodes: seq<Node<T>>
    ghost var chains: seq<seq<Node<T>>>

    // ---- the links ----

    ghost function At(i: nat): Node<T>
      reads this`nodes
    {
      if i < |nodes| then nodes[i] else sentinel
    }

    ghost predicate Distinct()
      reads this`nodes
    {
      sentinel !in nodes && NoRepeats(nodes)
      && forall n | n in nodes :: n.data.Some?
    }

    ghost predicate Linked()
      reads this`head, this`nodes, sentinel`prev, nodes`next, nodes`prev
    {
      head == At(0)
      && (forall i {:trigger nodes[i].next} | 0 <= i < |nodes| :: nodes[i].next == At(i + 1))
      && (forall i {:trigger nodes[i].prev} | 0 < i < |nodes| :: nodes[i].prev == nodes[i - 1])
      && (nodes != [] ==> sentinel.prev == nodes[|nodes| - 1])
    }

    static function ItemOf(n: Node<T>): Item<T>
      requires n.data.Some?
    {
      Item(n.id, n.data.value)
    }

    static ghost function ItemsOf(ns: seq<Node<T>>): (s: seq<Item<T>>)
      requires forall n | n in ns :: n.data.Some?
      ensures |s| == |ns|
    {
      seq(|ns|, i requires 0 <= i < |ns| && ns[i].data.Some? => ItemOf(ns[i]))
    }

    ghost function Items(): seq<Item<T>>
      requires Distinct()
      reads this`nodes
    {
      ItemsOf(nodes)
    }

    // ---- the index ----

    ghost predicate Hashed() {
      table.Length > 0
    }

    function Slot(id: nat): (b: nat)
      requires table.Length > 0
      ensures b < table.Length
    {
      id % table.Length
    }

    /** Bucket `b` is the chain of exactly the nodes of `s` whose ids have that residue. */
    ghost predicate Bucket(b: nat, s: set<Node<T>>)
      requires b < table.Length && b < |chains|
      reads this`chains, table, s`hashNext
    {
      var c := chains[b];
      (forall n | n in c :: n in s && Slot(n.id) == b)
      && (forall n | n in s && Slot(n.id) == b :: n in c)
      && NoRepeats(c)
      && table[b] == ChainAt(c, 0) && (forall j {:trigger c[j].hashNext} | 0 <= j < |c| :: c[j].hashNext == ChainAt(c, j + 1))
    }

    /** The node at a place of a chain, null behind its end. */
    static ghost function ChainAt(c: seq<Node<T>>, j: nat): Node?<T> {
      if j < |c| then c[j] else null
    }

    ghost predicate Index(s: set<Node<T>>)
      reads this`chains, table, s`hashNext
    {
      |chains| == table.Length
      && (forall b | 0 <= b < |chains| :: Bucket(b, s))
      && (Hashed() ==> forall m, n | m in s && n in s && m.id == n.id :: m == n)
    }

    ghost function All(): set<Node<T>>
      reads this`nodes
    {
      set n | n in nodes
    }

    ghost predicate Valid()
      reads this, sentinel, nodes, table
    {
      Distinct() && Linked() && Index(All())
    }

    constructor (size: nat)
      ensures Valid() && Items() == [] && table.Length == size && fresh(sentinel) && fresh(table)
    {
      var s := new Node<T>(0, None);
      sentinel, head := s, s;
      table := new Node?<T>[size](_ => null);
      nodes, chains := [], seq(size, _ => []);
    }

    /** The new node becomes the first of its bucket. */
    method AddToHashTable(ln: Node<T>, ghost s: set<Node<T>>)
      requires Hashed() && Index(s) && ln !in s && forall n | n in s :: n.id != ln.id
      modifies this`chains, table, ln`hashNext
      ensures Index(s + {ln})
    {
      var b := Slot(ln.id);
      ghost var was := chains;
      assert Bucket(b, s);
      ln.hashNext := table[b];
      table[b] := ln;
      chains := chains[b := [ln] + chains[b]];
      forall k | 0 <= k < |chains| ensures Bucket(k, s + {ln}) {
        assert old(Bucket(k, s));
      }
    }

    /** The first node of a bucket leaves it. */
    method UnlinkFirst(b: nat, ghost s: set<Node<T>>)
      requires Index(s) && b < |chains| && chains[b] != []
      modifies this`chains, table
      ensures Index(s - {old(chains[b][0])})
    {
      ghost var c := chains[b];
      assert Bucket(b, s);
      var first := table[b];
      assert c[0].hashNext == ChainAt(c, 1);
      table[b] := first.hashNext;
      chains := chains[b := c[1..]];
      forall k | 0 <= k < |chains| ensures Bucket(k, s - {c[0]}) {
        assert old(Bucket(k, s));
      }
    }

    /** The node behind `value` leaves its bucket. */
    method UnlinkNext(value: Node<T>, ghost b: nat, ghost j: nat, ghost s: set<Node<T>>)
      requires Index(s) && b < |chains| && j + 1 < |chains[b]| && value == chains[b][j]
      modifies this`chains, value`hashNext
      ensures Index(s - {old(chains[b][j + 1])})
    {
      ghost var c := chains[b];
      assert Bucket(b, s) && c[j].hashNext == c[j + 1] && c[j + 1].hashNext == ChainAt(c, j + 2);
      var next := value.hashNext;
      value.hashNext := next.hashNext;
      CutIsWithout(c, j + 1);
      chains := chains[b := Cut(c, j + 1)];
      forall k | 0 <= k < |chains| && k != b ensures Bucket(k, s - {next}) {
        assert old(Bucket(k, s));
      }
      ghost var d := Cut(c, j + 1);
      forall i {:trigger d[i].hashNext} | 0 <= i < |d| ensures d[i].hashNext == ChainAt(d, i + 1) {
        assert old(c[if i <= j then i else i + 1].hashNext) == ChainAt(c, if i <= j then i + 1 else i + 2);
      }
      assert Bucket(b, s - {next});
    }

    /** Unlinks the node with the id from its bucket, if there is one. */
    method RemoveFromHashTable(id: nat, ghost s: set<Node<T>>) returns (found: Node?<T>)
      requires Hashed() && Index(s)
      modifies this`chains, table, s`hashNext
      ensures if found == null then (forall n | n in s :: n.id != id) && Index(s)
              else found in s && found.id == id && Index(s - {found})
    {
      var b := Slot(id);
      ghost var c := chains[b];
      assert Bucket(b, s);
      var value := table[b];
      if value == null {
        return null;
      }
      if value.id == id {
        UnlinkFirst(b, s);
        return value;
      }
      ghost var j := 0;
      while value.hashNext != null
        invariant j < |c| && value == c[j] && chains == old(chains) && unchanged(table) && unchanged(s`hashNext)
        invariant forall i | 0 <= i <= j :: c[i].id != id
        decreases |c| - j
      {
        var next := value.hashNext;
        assert c[j].hashNext == ChainAt(c, j + 1);
        if next.id == id {
          UnlinkNext(value, b, j, s);
          return next;
        }
        value := next;
        j := j + 1;
      }
      assert c[j].hashNext == ChainAt(c, j + 1);
      return null;
    }

    method FindFromHashTable(id: nat, ghost s: set<Node<T>>) returns (found: Node?<T>)
      requires Hashed() && Index(s)
      ensures if found == null then forall n | n in s :: n.id != id else found in s && found.id == id
    {
      var b := Slot(id);
      ghost var c, j := chains[b], 0;
      assert Bucket(b, s);
      found := table[b];
      while found != null && found.id != id
        invariant j <= |c| && found == ChainAt(c, j)
        invariant forall i | 0 <= i < j :: c[i].id != id
        decreases |c| - j
      {
        assert found == c[j];
        found := found.hashNext;
        j := j + 1;
      }
    }

    // ---- the list operations ----

    method Empty() returns (empty: bool)
      requires Distinct() && Linked()
      ensures empty <==> Items() == []
    {
      empty := head == sentinel;
    }

    method Peak() returns (r: Option<T>)
      requires Distinct() && Linked() && sentinel.data == None
      ensures r == if Items() == [] then None else Some(Items()[0].data)
    {
      r := head.data;
    }

    /** The list surgery of ListPush. */
    method LinkFirst(ln: Node<T>)
      requires Distinct() && Linked() && ln !in nodes && ln != sentinel && ln.data.Some?
      modifies this`head, this`nodes, head`prev, ln`next
      ensures Distinct() && Linked() && nodes == [ln] + old(nodes)
    {
      head.prev := ln;
      ln.next := head;
      head := ln;
      nodes := [ln] + nodes;
    }

    /** A new node in front. */
    method Push(data: T, id: nat)
      requires Valid() && (Hashed() ==> forall n | n in nodes :: n.id != id)
      modifies this`head, this`nodes, this`chains, table, head`prev
      ensures Valid() && Items() == [Item(id, data)] + old(Items())
      ensures |nodes| == |old(nodes)| + 1 && fresh(nodes[0]) && nodes[1..] == old(nodes)
    {
      ghost var s := All();
      var ln := new Node<T>(id, Some(data));
      LinkFirst(ln);
      if table.Length > 0 {
        AddToHashTable(ln, s);
      }
      assert All() == s + {ln};
    }

    /** The list surgery of ListDequeue. */
    method UnlinkHead()
      requires Distinct() && Linked() && nodes != []
      modifies this`head, this`nodes, nodes`prev, sentinel`prev
      ensures Distinct() && Linked() && nodes == old(nodes)[1..]
    {
      head := head.next;
      head.prev := sentinel;
      nodes := nodes[1..];
    }

    /** The index lacks exactly the first node, whose id no other node has. */
    ghost predicate OnlyHeadMissing()
      reads this`nodes, this`chains, table, nodes`hashNext
    {
      nodes != [] && Hashed() && Index(All() - {nodes[0]}) && forall n | n in nodes && n != nodes[0] :: n.id != nodes[0].id
    }

    /** The part of ListDequeue that takes the first node out of the index, if it is still there. */
    method ForgetHead()
      requires Distinct() && nodes != [] && Hashed() && head == nodes[0]
      requires Index(All()) || OnlyHeadMissing()
      modifies this`chains, table, nodes`hashNext
      ensures Index(All() - {nodes[0]})
    {
      ghost var indexed := if Index(All()) then All() else All() - {nodes[0]};
      var gone := RemoveFromHashTable(head.id, indexed);
      assert indexed != All() ==> indexed - {nodes[0]} == indexed;
    }

    method Dequeue() returns (r: Option<T>)
      requires Distinct() && Linked()
      requires Index(All()) || OnlyHeadMissing()
      modifies this`head, this`nodes, this`chains, table, nodes`prev, nodes`hashNext, sentinel`prev
      ensures Valid()
      ensures if old(nodes) == [] then r == None && nodes == []
              else r == old(nodes)[0].data && nodes == old(nodes)[1..]
    {
      if head == sentinel {
        return None;
      }
      ghost var s := All();
      var ln := head;
      if table.Length > 0 {
        ForgetHead();
      }
      UnlinkHead();
      r := ln.data;
      assert All() == s - {ln};
    }

    /** The linear scan from the head. */
    method FindNodeById(id: nat) returns (found: Node?<T>)
      requires Distinct() && Linked()
      ensures var k := IndexOf(Items(), id); found == if k < |nodes| then nodes[k] else null
    {
      var iter := head;
      ghost var i := 0;
      while iter != sentinel
        invariant i <= |nodes| && iter == At(i) && forall j | 0 <= j < i :: Items()[j].id != id
        decreases |nodes| - i
      {
        assert nodes[i].next == At(i + 1) && Items()[i].id == iter.id;
        if iter.id == id {
          return iter;
        }
        iter := iter.next;
        i := i + 1;
      }
      return null;
    }

    ghost predicate UniqueNodes()
      reads this`nodes
    {
      forall m, n | m in nodes && n in nodes && m.id == n.id :: m == n
    }

    /** In a list with unique ids a node is determined by its id. */
    lemma OnlyOne(id: nat, found: Node?<T>)
      requires Distinct() && UniqueNodes()
      requires if found == null then forall n | n in nodes :: n.id != id else found in nodes && found.id == id
      ensures var k := IndexOf(Items(), id); found == if k < |nodes| then nodes[k] else null
    {
      var k := IndexOf(Items(), id);
      assert forall j | 0 <= j < |nodes| :: nodes[j].id == Items()[j].id;
      if k < |nodes| {
        assert nodes[k] in nodes && nodes[k].id == id;
      }
    }

    lemma IndexIs(p: nat)
      requires Distinct() && UniqueNodes() && p < |nodes|
      ensures IndexOf(Items(), nodes[p].id) == p
    {
      OnlyOne(nodes[p].id, nodes[p]);
    }

    /** Through the index or by a scan, the first item with the id. */
    method FindById(id: nat) returns (r: Option<T>)
      requires Valid()
      ensures r == FindFirst(Items(), id)
    {
      var node: Node?<T>;
      if table.Length > 0 {
        node := FindFromHashTable(id, All());
        OnlyOne(id, node);
      } else {
        node := FindNodeById(id);
      }
      if node != null {
        r := node.data;
      } else {
        r := None;
      }
    }

    /** A node that is not the head leaves the list. */
    method UnlinkMiddle(node: Node<T>, ghost k: nat)
      requires Distinct() && Linked() && 0 < k < |nodes| && node == nodes[k]
      modifies this`nodes, nodes`next, nodes`prev, sentinel`prev
      ensures Distinct() && Linked() && nodes == Cut(old(nodes), k)
      ensures node.next == old(node.next)
    {
      ghost var c, d := nodes, Cut(nodes, k);
      CutIsWithout(c, k);
      assert c[k].prev == c[k - 1] && c[k].next == At(k + 1);
      var prev := node.prev;
      prev.next := node.next;
      node.next.prev := node.prev;
      nodes := d;
      forall i {:trigger nodes[i].next} | 0 <= i < |nodes| ensures nodes[i].next == At(i + 1) {
        assert old(nodes[if i < k then i else i + 1].next == At(if i < k then i + 1 else i + 2));
      }
      forall i {:trigger nodes[i].prev} | 0 < i < |nodes| ensures nodes[i].prev == nodes[i - 1] {
        assert old(nodes[if i < k then i else i + 1].prev) == c[if i < k then i - 1 else i];
      }
    }

    /** The node to remove, already out of the index. */
    method FindToRemove(id: nat) returns (node: Node?<T>)
      requires Valid()
      modifies this`chains, table, nodes`hashNext
      ensures var k := IndexOf(Items(), id); node == if k < |nodes| then nodes[k] else null
      ensures if node == null then Index(All()) else Index(All() - {node}) && (Hashed() ==> UniqueNodes())
    {
      if table.Length > 0 {
        assert UniqueNodes();
        node := RemoveFromHashTable(id, All());
        OnlyOne(id, node);
      } else {
        node := FindNodeById(id);
      }
    }

    static lemma CutItems(ns: seq<Node<T>>, k: nat)
      requires k < |ns| && forall n | n in ns :: n.data.Some?
      ensures (forall n | n in Cut(ns, k) :: n.data.Some?) && ItemsOf(Cut(ns, k)) == Cut(ItemsOf(ns), k)
    {
      assert forall n | n in Cut(ns, k) :: n in ns;
      var s, t := ItemsOf(Cut(ns, k)), Cut(ItemsOf(ns), k);
      assert |s| == |t|;
      forall i | 0 <= i < |s| ensures s[i] == t[i] {
        assert Cut(ns, k)[i] == ns[if i < k then i else i + 1];
        assert t[i] == ItemsOf(ns)[if i < k then i else i + 1];
      }
    }

    lemma RemovedItems(ns: seq<Node<T>>, id: nat)
      requires NoRepeats(ns) && forall n | n in ns :: n.data.Some?
      ensures var s := ItemsOf(ns); var k := IndexOf(s, id);
        if k < |ns| then
          (forall n | n in Cut(ns, k) :: n.data.Some?) && ItemsOf(Cut(ns, k)) == RemoveFirst(s, id)
          && ns[k].data == FindFirst(s, id)
        else RemoveFirst(s, id) == s && FindFirst(s, id) == None
    {
      var k := IndexOf(ItemsOf(ns), id);
      if k < |ns| {
        CutItems(ns, k);
      }
    }

    lemma HeadMissing()
      requires nodes != [] && Index(All() - {nodes[0]}) && (Hashed() ==> UniqueNodes())
      ensures Index(All()) || OnlyHeadMissing()
    {
      if Hashed() {
        assert nodes[0] in nodes;
      }
    }

    /** The rest of ListRemoveById for the head: it leaves by a dequeue. */
    method RemoveHead(node: Node<T>) returns (r: Option<T>)
      requires Distinct() && Linked() && nodes != [] && node == nodes[0]
      requires Index(All() - {node}) && (Hashed() ==> UniqueNodes())
      modifies this`head, this`nodes, this`chains, table, nodes`prev, nodes`hashNext, sentinel`prev
      ensures Valid() && r == node.data && nodes == Cut(old(nodes), 0)
    {
      assert Cut(nodes, 0) == nodes[1..];
      HeadMissing();
      r := Dequeue();
    }

    /** The rest of ListRemoveById for a node behind the head. */
    method RemoveInner(node: Node<T>, ghost k: nat) returns (r: Option<T>)
      requires Distinct() && Linked() && 0 < k < |nodes| && node == nodes[k] && Index(All() - {node})
      modifies this`nodes, nodes`next, nodes`prev, sentinel`prev
      ensures Valid() && r == node.data && nodes == Cut(old(nodes), k) && node.next == old(node.next)
    {
      ghost var s := All();
      CutIsWithout(nodes, k);
      UnlinkMiddle(node, k);
      assert All() == s - {node};
      r := node.data;
    }

    /** Takes the first node with the id out of the list and the index. */
    method RemoveById(id: nat) returns (r: Option<T>)
      requires Valid()
      modifies this`head, this`nodes, this`chains, table, nodes, sentinel`prev
      ensures Valid() && r == FindFirst(old(Items()), id) && Items() == RemoveFirst(old(Items()), id)
      ensures var k := IndexOf(old(Items()), id);
        if k < |old(nodes)| then nodes == Cut(old(nodes), k) && old(nodes)[k].next == old(nodes[k].next) else nodes == old(nodes)
    {
      ghost var k := IndexOf(Items(), id);
      RemovedItems(nodes, id);
      var node := FindToRemove(id);
      if node == null {
        return None;
      }
      if node == head {
        assert k == 0;
        r := RemoveHead(node);
      } else {
        r := RemoveInner(node, k);
      }
    }

    /** Takes the first node whose id is at most the bound out of the list; with or without repeated
        ids, it is the node whose data are returned. */
    method FindFirstLessThanIdAndRemove(bound: nat) returns (r: Option<T>)
      requires Valid()
      modifies this`head, this`nodes, this`chains, table, nodes, sentinel`prev
      ensures Valid()
      ensures var k := FirstAtMost(old(Items()), bound);
        if k < |old(nodes)| then r == old(nodes)[k].data && nodes == Cut(old(nodes), k)
        else r == None && nodes == old(nodes)
    {
      var iter := head;
      ghost var i := 0;
      while iter != sentinel
        invariant i <= |nodes| && iter == At(i) && forall j | 0 <= j < i :: Items()[j].id > bound
        invariant Valid() && nodes == old(nodes)
        decreases |nodes| - i
      {
        assert nodes[i].next == At(i + 1) && Items()[i].id == iter.id;
        if iter.id <= bound {
          r := iter.data;
          assert IndexOf(Items(), iter.id) == i == FirstAtMost(Items(), bound);
          var removed := RemoveById(iter.id);
          return;
        }
        iter := iter.next;
        i := i + 1;
      }
      return None;
    }

    /** The list surgery of ListAppend on a list that is not empty. */
    method LinkLast(ln: Node<T>)
      requires Distinct() && Linked() && nodes != [] && ln !in nodes && ln != sentinel && ln.data.Some?
      modifies this`nodes, ln`prev, ln`next, nodes`next, sentinel`prev
      ensures Distinct() && Linked() && nodes == old(nodes) + [ln]
    {
      var last := sentinel.prev;
      ln.prev := last;
      last.next := ln;
      sentinel.prev := ln;
      ln.next := sentinel;
      nodes := nodes + [ln];
    }

    method Append(data: T, id: nat)
      requires Valid() && (Hashed() ==> forall n | n in nodes :: n.id != id)
      modifies this`head, this`nodes, this`chains, table, nodes, sentinel`prev
      ensures Valid() && Items() == old(Items()) + [Item(id, data)]
    {
      if head == sentinel {
        Push(data, id);
        return;
      }
      ghost var s := All();
      var ln := new Node<T>(id, Some(data));
      LinkLast(ln);
      if table.Length > 0 {
        AddToHashTable(ln, s);
      }
      assert All() == s + {ln};
    }

    // ---- traversal ----

    static ghost function Kept(ns: seq<Node<T>>, gone: nat -> bool): (ks: seq<Node<T>>)
      ensures forall n | n in ks :: n in ns
    {
      if ns == [] then [] else (if gone(ns[0].id) then [] else [ns[0]]) + Kept(ns[1..], gone)
    }

    static lemma {:induction false} KeptAppend(ns: seq<Node<T>>, n: Node<T>, gone: nat -> bool)
      ensures Kept(ns + [n], gone) == Kept(ns, gone) + (if gone(n.id) then [] else [n])
    {
      if ns == [] {
        assert ns + [n] == [n] && [n][1..] == [];
      } else {
        KeptAppend(ns[1..], n, gone);
        assert (ns + [n])[1..] == ns[1..] + [n] && (ns + [n])[0] == ns[0];
      }
    }

    /** In the middle of a traversal of `c`: where its next node stands in the list, and what the list
        is when that node has been visited. */
    static lemma KeptStep(c: seq<Node<T>>, k: nat, nodes: seq<Node<T>>, gone: nat -> bool) returns (p: nat)
      requires k < |c| && nodes == Kept(c[..k], gone) + c[k..]
      ensures p < |nodes| && nodes[p] == c[k] && |nodes| - p == |c| - k
      ensures p + 1 < |nodes| ==> nodes[p + 1] == c[k + 1]
      ensures Kept(c[..k + 1], gone) + c[k + 1..] == nodes[..p] + (if gone(c[k].id) then [] else [c[k]]) + nodes[p + 1..]
    {
      var kept := Kept(c[..k], gone);
      p := |kept|;
      assert c[k..] == [c[k]] + c[k + 1..];
      assert nodes[..p] == kept && nodes[p + 1..] == c[k + 1..];
      assert c[..k + 1] == c[..k] + [c[k]];
      KeptAppend(c[..k], c[k], gone);
    }

    static lemma {:induction false} KeptItems(ns: seq<Node<T>>, gone: nat -> bool)
      requires forall n | n in ns :: n.data.Some?
      ensures ItemsOf(Kept(ns, gone)) == Keep(ItemsOf(ns), gone)
    {
      if ns != [] {
        KeptItems(ns[1..], gone);
        assert ItemsOf(ns)[1..] == ItemsOf(ns[1..]);
        assert ItemsOf(Kept(ns, gone)) == (if gone(ns[0].id) then [] else [ItemsOf(ns)[0]]) + ItemsOf(Kept(ns[1..], gone));
      }
    }

    /** Folded, so that the traversal does not look inside `Valid`: see `Look`. */
    ghost predicate Traversable()
      reads this, sentinel, nodes, table
    {
      forall k: nat | Look(k) :: Valid() && UniqueNodes()
    }

    /** Before its `k`-th step a traversal of what was the list `c` has kept what is not gone. */
    ghost predicate Traversing(c: seq<Node<T>>, k: nat, gone: nat -> bool)
      reads this, sentinel, nodes, table
    {
      k <= |c| && Traversable() && nodes == Kept(c[..k], gone) + c[k..]
    }

    ghost function Stop(c: seq<Node<T>>, k: nat): Node<T> {
      if k < |c| then c[k] else sentinel
    }

    /** The callback on one node. A node that it unlinks keeps its fields: its `next` is what it was. */
    method Visit(i: Node<T>, ghost p: nat, gone: nat -> bool)
      requires Traversable() && p < |nodes| && i == nodes[p] && gone(i.id)
      modifies this`head, this`nodes, this`chains, table, nodes, sentinel`prev
      ensures Traversable() && i.next == old(At(p + 1)) && nodes == Cut(old(nodes), p)
    {
      assert Look(0);
      assert nodes[p].next == At(p + 1);
      IndexIs(p);
      CutIsWithout(nodes, p);
      var removed := RemoveById(i.id);
    }

    lemma NextIs(p: nat)
      requires Traversable() && p < |nodes|
      ensures nodes[p].next == At(p + 1)
    {
      assert Look(0);
    }

    method Step(ghost c: seq<Node<T>>, ghost k: nat, i: Node<T>, gone: nat -> bool, ghost frame: set<Node<T>>)
      returns (next: Node<T>)
      requires Traversing(c, k, gone) && k < |c| && i == c[k] && All() <= frame
      modifies this`head, this`nodes, this`chains, table, frame, sentinel`prev
      ensures Traversing(c, k + 1, gone) && next == Stop(c, k + 1) && All() <= frame
    {
      ghost var p := KeptStep(c, k, nodes, gone);
      NextIs(p);
      if gone(i.id) {
        Visit(i, p, gone);
      }
      next := i.next;
    }

    lemma Starts(gone: nat -> bool)
      requires Traversable()
      ensures head == Stop(nodes, 0) && Traversing(nodes, 0, gone) && Distinct()
    {
      assert Look(0);
      assert nodes[..0] == [];
    }

    lemma Stops(c: seq<Node<T>>, gone: nat -> bool)
      requires Traversing(c, |c|, gone) && forall n | n in c :: n.data.Some?
      ensures Distinct() && Items() == Keep(ItemsOf(c), gone)
    {
      assert Look(0);
      assert c[..|c|] == c && c[|c|..] == [] && Kept(c, gone) + [] == Kept(c, gone);
      KeptItems(c, gone);
    }

    /** The first `k` nodes have been visited. */
    static ghost predicate Seen(visited: seq<Item<T>>, c: seq<Node<T>>, k: nat) {
      forall j: nat | Look(j) :: k <= |c| && (forall n | n in c :: n.data.Some?) && visited == ItemsOf(c)[..k]
    }

    static lemma SeenNothing(c: seq<Node<T>>)
      requires forall n | n in c :: n.data.Some?
      ensures Seen([], c, 0)
    {
    }

    static lemma SeesNext(visited: seq<Item<T>>, c: seq<Node<T>>, k: nat)
      requires Seen(visited, c, k) && k < |c|
      ensures c[k].data.Some? && Seen(visited + [ItemOf(c[k])], c, k + 1)
    {
      assert Look(0);
      assert c[k] in c;
    }

    static lemma SeenAll(visited: seq<Item<T>>, c: seq<Node<T>>)
      requires Seen(visited, c, |c|) && forall n | n in c :: n.data.Some?
      ensures visited == ItemsOf(c)
    {
      assert Look(0);
    }

    /** ListMap with a callback that removes the items that are `gone`, as the clock's does: it steps
        on from a node that may have just been unlinked, and still visits every item once, in order. */
    method MapRemoving(gone: nat -> bool) returns (visited: seq<Item<T>>)
      requires Traversable() && Distinct()
      modifies this`head, this`nodes, this`chains, table, All(), sentinel`prev
      ensures Traversable() && Distinct() && visited == old(Items()) && Items() == Keep(old(Items()), gone)
    {
      ghost var c, k, frame := nodes, 0, All();
      var i := head;
      visited := [];
      Starts(gone);
      SeenNothing(c);
      while i != sentinel
        invariant i == Stop(c, k) && Traversing(c, k, gone) && All() <= frame
        invariant Seen(visited, c, k)
        decreases |c| - k
      {
        SeesNext(visited, c, k);
        visited := visited + [ItemOf(i)];
        i := Step(c, k, i, gone, frame);
        k := k + 1;
      }
      Stops(c, gone);
      SeenAll(visited, c);
    }
  }
}
