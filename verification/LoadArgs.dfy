/** The argument block LoadProgram builds on the new program's stack: where it goes, and that a
    program that follows argc and argv finds its arguments in it. */
module LoadArgs {
  type Octet = x: nat | x < 256

  const PAGESIZE := 0x2000
  const VMEM_1_BASE := 0x100000
  const VMEM_1_LIMIT := 0x200000
  const MAX_PT_LEN := (VMEM_1_LIMIT - VMEM_1_BASE) / PAGESIZE
  const WORD_BYTES := 4
  const INITIAL_STACK_FRAME_SIZE := 0
  const POST_ARGV_NULL_SPACE := 0x20

  // ---- sizes ----

  /** The bytes of the strings, each with its NUL. */
  function Size(args: seq<seq<Octet>>): nat {
    if args == [] then 0 else Size(args[..|args| - 1]) + |args[|args| - 1]| + 1
  }

  /** The loop that counts the bytes before anything is built. */
  method CountBytes(args: seq<seq<Octet>>) returns (size: nat)
    ensures size == Size(args)
  {
    size := 0;
    for i := 0 to |args|
      invariant size == Size(args[..i])
    {
      assert args[..i + 1][..i] == args[..i];
      size := size + |args[i]| + 1;
    }
    assert args[..|args|] == args;
  }

  /** Where the strings begin, and where string `i` begins. */
  function Strings(args: seq<seq<Octet>>): int {
    VMEM_1_LIMIT - Size(args)
  }

  function StringStart(args: seq<seq<Octet>>, i: nat): int
    requires i <= |args|
  {
    Strings(args) + Size(args[..i])
  }

  /** Where argc is, with argv behind it; a multiple of eight. */
  function ArgBlock(args: seq<seq<Octet>>): int {
    var p := Strings(args) - (|args| + 3 + POST_ARGV_NULL_SPACE) * WORD_BYTES;
    p - p % 8
  }

  function StackPointer(args: seq<seq<Octet>>): int {
    ArgBlock(args) - INITIAL_STACK_FRAME_SIZE
  }

  function DownToPage(a: int): int {
    a - a % PAGESIZE
  }

  function StackPages(args: seq<seq<Octet>>): int {
    (VMEM_1_LIMIT - DownToPage(StackPointer(args))) / PAGESIZE
  }

  /** The test that leaves at least one page between heap and stack. */
  predicate Fits(args: seq<seq<Octet>>, heapPages: nat) {
    StackPages(args) + heapPages < MAX_PT_LEN
  }

  lemma {:induction false} SizeUpTo(args: seq<seq<Octet>>, i: nat)
    requires i < |args|
    ensures Size(args[..i + 1]) == Size(args[..i]) + |args[i]| + 1
    ensures Size(args[..i + 1]) <= Size(args)
    decreases |args| - i
  {
    assert args[..i + 1][..i] == args[..i];
    if i + 1 < |args| {
      SizeUpTo(args, i + 1);
    } else {
      assert args[..i + 1] == args;
    }
  }

  /** The block is aligned, lies in the stack's pages, and its pointers end before the strings begin;
      the page of the stack pointer is the lowest of the stack's pages, above the heap. */
  lemma BlockLayout(args: seq<seq<Octet>>, heapPages: nat)
    requires Fits(args, heapPages)
    ensures StackPointer(args) % 8 == 0
    ensures VMEM_1_BASE + heapPages * PAGESIZE < StackPointer(args) == ArgBlock(args)
    ensures ArgBlock(args) + (|args| + 3) * WORD_BYTES <= ArgBlock(args) + (|args| + 3 + POST_ARGV_NULL_SPACE) * WORD_BYTES
         <= Strings(args) <= VMEM_1_LIMIT
    ensures StackPointer(args) / PAGESIZE - VMEM_1_BASE / PAGESIZE == MAX_PT_LEN - StackPages(args) > heapPages
    ensures 0 < StackPages(args)
  {
  }

  /** The last string ends at the end of the region, and strings do not overlap. */
  lemma StringsLayout(args: seq<seq<Octet>>, i: nat)
    requires i < |args|
    ensures Strings(args) <= StringStart(args, i) && StringStart(args, i) + |args[i]| + 1 == StringStart(args, i + 1) <= VMEM_1_LIMIT
    ensures i + 1 == |args| ==> StringStart(args, i) + |args[i]| + 1 == VMEM_1_LIMIT
  {
    SizeUpTo(args, i);
    assert args[..|args|] == args;
  }

  // ---- memory ----

  /** The bytes of region 1, from VMEM_1_BASE on. */
  ghost predicate Region(m: seq<Octet>) {
    |m| == VMEM_1_LIMIT - VMEM_1_BASE
  }

  function ByteAt(m: seq<Octet>, a: int): Octet
    requires VMEM_1_BASE <= a < VMEM_1_BASE + |m|
  {
    m[a - VMEM_1_BASE]
  }

  /** A word is stored with its lowest byte first. */
  function WordAt(m: seq<Octet>, a: int): nat
    requires VMEM_1_BASE <= a && a + WORD_BYTES <= VMEM_1_BASE + |m|
  {
    ByteAt(m, a) + 256 * ByteAt(m, a + 1) + 0x1_0000 * ByteAt(m, a + 2) + 0x100_0000 * ByteAt(m, a + 3)
  }

  /** The C string at an address. */
  function StringAt(m: seq<Octet>, a: int): seq<Octet>
    requires VMEM_1_BASE <= a <= VMEM_1_BASE + |m|
    decreases VMEM_1_BASE + |m| - a
  {
    if a == VMEM_1_BASE + |m| || ByteAt(m, a) == 0 then [] else [ByteAt(m, a)] + StringAt(m, a + 1)
  }

  /** The strings the `n` pointers from `p` on lead to. */
  function Follow(m: seq<Octet>, p: int, n: nat): seq<seq<Octet>>
    decreases n
  {
    if n == 0 || p < VMEM_1_BASE || p + WORD_BYTES > VMEM_1_BASE + |m| then []
    else
      var a := WordAt(m, p);
      if VMEM_1_BASE <= a <= VMEM_1_BASE + |m| then [StringAt(m, a)] + Follow(m, p + WORD_BYTES, n - 1) else []
  }

  /** What a program finds that starts with its stack pointer at `sp`. */
  function Parse(m: seq<Octet>, sp: int): seq<seq<Octet>> {
    if VMEM_1_BASE <= sp && sp + WORD_BYTES <= VMEM_1_BASE + |m| then Follow(m, sp + WORD_BYTES, WordAt(m, sp)) else []
  }

  /** The string and its NUL are in memory at the address. */
  ghost predicate Holds(m: seq<Octet>, a: int, s: seq<Octet>) {
    VMEM_1_BASE <= a && a + |s| < VMEM_1_BASE + |m|
    && (forall k | 0 <= k < |s| :: ByteAt(m, a + k) == s[k]) && ByteAt(m, a + |s|) == 0
  }

  ghost predicate NoNul(s: seq<Octet>) {
    0 !in s
  }

  lemma {:induction false} HoldsString(m: seq<Octet>, a: int, s: seq<Octet>)
    requires Holds(m, a, s) && NoNul(s)
    ensures StringAt(m, a) == s
    decreases |s|
  {
    if s != [] {
      assert ByteAt(m, a) == s[0] && s[0] in s;
      forall k | 0 <= k < |s[1..]| ensures ByteAt(m, a + 1 + k) == s[1..][k] {
        assert ByteAt(m, a + (k + 1)) == s[k + 1];
      }
      HoldsString(m, a + 1, s[1..]);
    }
  }

  /** The pointers and strings of the arguments from number `i` on are in place. */
  ghost predicate Argument(m: seq<Octet>, args: seq<seq<Octet>>, i: nat)
    requires i < |args|
  {
    var p := ArgBlock(args) + (1 + i) * WORD_BYTES;
    VMEM_1_BASE <= p && p + WORD_BYTES <= VMEM_1_BASE + |m|
    && WordAt(m, p) == StringStart(args, i) && Holds(m, StringStart(args, i), args[i])
  }

  ghost predicate Zero(m: seq<Octet>, lo: int, hi: int) {
    VMEM_1_BASE <= lo && hi <= VMEM_1_BASE + |m| && forall a | lo <= a < hi :: ByteAt(m, a) == 0
  }

  /** The finished block: argc, the pointers, the two NULL pointers and the zeroed space, the strings. */
  ghost predicate Built(m: seq<Octet>, args: seq<seq<Octet>>) {
    var p := ArgBlock(args);
    Region(m) && VMEM_1_BASE <= p && p + WORD_BYTES <= VMEM_1_LIMIT && WordAt(m, p) == |args|
    && (forall i | 0 <= i < |args| :: Argument(m, args, i))
    && Zero(m, p + (1 + |args|) * WORD_BYTES, Strings(args))
  }

  lemma {:induction false} FollowFinds(m: seq<Octet>, args: seq<seq<Octet>>, i: nat)
    requires Built(m, args) && i <= |args| && forall s | s in args :: NoNul(s)
    ensures Follow(m, ArgBlock(args) + (1 + i) * WORD_BYTES, |args| - i) == args[i..]
    decreases |args| - i
  {
    if i < |args| {
      assert Argument(m, args, i);
      HoldsString(m, StringStart(args, i), args[i]);
      FollowFinds(m, args, i + 1);
      assert args[i..] == [args[i]] + args[i + 1..];
    }
  }

  /** Parsing the block gives back the arguments. */
  lemma ParseFinds(m: seq<Octet>, args: seq<seq<Octet>>)
    requires Built(m, args) && forall s | s in args :: NoNul(s)
    ensures Parse(m, StackPointer(args)) == args
  {
    FollowFinds(m, args, 0);
    assert args[0..] == args;
    assert ArgBlock(args) + (1 + 0) * WORD_BYTES == StackPointer(args) + WORD_BYTES;
    assert Parse(m, StackPointer(args)) == Follow(m, StackPointer(args) + WORD_BYTES, WordAt(m, StackPointer(args)));
  }

  /** Behind argv come a NULL pointer for it and one for an empty environment. */
  lemma NullsBehind(m: seq<Octet>, args: seq<seq<Octet>>, heapPages: nat)
    requires Built(m, args) && Fits(args, heapPages)
    ensures var p := ArgBlock(args) + (1 + |args|) * WORD_BYTES;
      VMEM_1_BASE <= p && p + 2 * WORD_BYTES <= VMEM_1_LIMIT && WordAt(m, p) == 0 && WordAt(m, p + WORD_BYTES) == 0
  {
    BlockLayout(args, heapPages);
  }

  // ---- building ----

  /** Only the bytes from `lo` up to `hi` differ. */
  ghost predicate Outside(m: seq<Octet>, m': seq<Octet>, lo: int, hi: int) {
    |m'| == |m| && forall k {:trigger m'[k]} {:trigger m[k]} | 0 <= k < |m| && !(lo <= k + VMEM_1_BASE < hi) :: m'[k] == m[k]
  }

  method StoreWord(mem: array<Octet>, a: int, v: nat)
    requires VMEM_1_BASE <= a && a + WORD_BYTES <= VMEM_1_BASE + mem.Length && v < 0x1_0000_0000
    modifies mem
    ensures WordAt(mem[..], a) == v && Outside(old(mem[..]), mem[..], a, a + WORD_BYTES)
  {
    var k := a - VMEM_1_BASE;
    var v1 := v / 256;
    var v2 := v1 / 256;
    var v3 := v2 / 256;
    mem[k] := v % 256;
    mem[k + 1] := v1 % 256;
    mem[k + 2] := v2 % 256;
    mem[k + 3] := v3;
  }

  method StoreString(mem: array<Octet>, a: int, s: seq<Octet>)
    requires VMEM_1_BASE <= a && a + |s| < VMEM_1_BASE + mem.Length
    modifies mem
    ensures Holds(mem[..], a, s) && Outside(old(mem[..]), mem[..], a, a + |s| + 1)
  {
    for i := 0 to |s|
      invariant Outside(old(mem[..]), mem[..], a, a + |s| + 1)
      invariant forall k | 0 <= k < i :: mem[a - VMEM_1_BASE + k] == s[k]
    {
      mem[a - VMEM_1_BASE + i] := s[i];
    }
    mem[a - VMEM_1_BASE + |s|] := 0;
  }

  // ---- what later writes leave alone ----

  lemma WordKept(m: seq<Octet>, m': seq<Octet>, lo: int, hi: int, a: int)
    requires Outside(m, m', lo, hi) && VMEM_1_BASE <= a && a + WORD_BYTES <= VMEM_1_BASE + |m| && (a + WORD_BYTES <= lo || hi <= a)
    ensures WordAt(m', a) == WordAt(m, a)
  {
  }

  lemma StringKept(m: seq<Octet>, m': seq<Octet>, lo: int, hi: int, a: int, s: seq<Octet>)
    requires Outside(m, m', lo, hi) && Holds(m, a, s) && (a + |s| < lo || hi <= a)
    ensures Holds(m', a, s)
  {
    forall k | 0 <= k < |s| ensures ByteAt(m', a + k) == s[k] {
      assert ByteAt(m, a + k) == s[k];
    }
  }

  /** The state of the block when `i` arguments are in place. */
  ghost predicate BuiltUpTo(m: seq<Octet>, args: seq<seq<Octet>>, i: nat)
    requires i <= |args|
  {
    var p := ArgBlock(args);
    Region(m) && VMEM_1_BASE <= p && p + WORD_BYTES <= VMEM_1_LIMIT && WordAt(m, p) == |args|
    && (forall j | 0 <= j < i :: Argument(m, args, j))
    && Zero(m, p + (1 + i) * WORD_BYTES, Strings(args))
  }

  /** An argument in place stays in place when the next pointer and string are written. */
  lemma ArgumentKept(m: seq<Octet>, m1: seq<Octet>, m2: seq<Octet>, args: seq<seq<Octet>>, i: nat, j: nat, heapPages: nat)
    requires Fits(args, heapPages) && Region(m) && j < i < |args| && Argument(m, args, j)
    requires var p := ArgBlock(args) + (1 + i) * WORD_BYTES; Outside(m, m1, p, p + WORD_BYTES)
    requires Outside(m1, m2, StringStart(args, i), StringStart(args, i) + |args[i]| + 1)
    ensures Argument(m2, args, j)
  {
    BlockLayout(args, heapPages);
    StringsLayout(args, j);
    StringsLayout(args, i);
    StartsInOrder(args, j, i);
    var p, pj := ArgBlock(args) + (1 + i) * WORD_BYTES, ArgBlock(args) + (1 + j) * WORD_BYTES;
    WordKept(m, m1, p, p + WORD_BYTES, pj);
    WordKept(m1, m2, StringStart(args, i), StringStart(args, i) + |args[i]| + 1, pj);
    StringKept(m, m1, p, p + WORD_BYTES, StringStart(args, j), args[j]);
    StringKept(m1, m2, StringStart(args, i), StringStart(args, i) + |args[i]| + 1, StringStart(args, j), args[j]);
  }

  lemma {:induction false} StartsInOrder(args: seq<seq<Octet>>, j: nat, i: nat)
    requires j < i <= |args|
    ensures StringStart(args, j) + |args[j]| + 1 <= StringStart(args, i)
    decreases i
  {
    SizeUpTo(args, i - 1);
    if j < i - 1 {
      StartsInOrder(args, j, i - 1);
    }
  }

  lemma OneMore(m: seq<Octet>, m1: seq<Octet>, m2: seq<Octet>, args: seq<seq<Octet>>, i: nat, heapPages: nat)
    requires Fits(args, heapPages) && i < |args| && BuiltUpTo(m, args, i)
    requires var p := ArgBlock(args) + (1 + i) * WORD_BYTES;
      VMEM_1_BASE <= p && p + WORD_BYTES <= VMEM_1_BASE + |m1| && Outside(m, m1, p, p + WORD_BYTES) && WordAt(m1, p) == StringStart(args, i)
    requires Outside(m1, m2, StringStart(args, i), StringStart(args, i) + |args[i]| + 1) && Holds(m2, StringStart(args, i), args[i])
    ensures BuiltUpTo(m2, args, i + 1)
  {
    BlockLayout(args, heapPages);
    StringsLayout(args, i);
    var p := ArgBlock(args) + (1 + i) * WORD_BYTES;
    var lo, hi := StringStart(args, i), StringStart(args, i) + |args[i]| + 1;
    forall j | 0 <= j < i + 1 ensures Argument(m2, args, j) {
      if j < i {
        assert Argument(m, args, j);
        ArgumentKept(m, m1, m2, args, i, j, heapPages);
      } else {
        WordKept(m1, m2, lo, hi, p);
      }
    }
    WordKept(m, m1, p, p + WORD_BYTES, ArgBlock(args));
    WordKept(m1, m2, lo, hi, ArgBlock(args));
    forall a | p + WORD_BYTES <= a < Strings(args) ensures ByteAt(m2, a) == 0 {
      assert ByteAt(m, a) == 0 && m1[a - VMEM_1_BASE] == m[a - VMEM_1_BASE] && m2[a - VMEM_1_BASE] == m1[a - VMEM_1_BASE];
    }
  }

  /** The two NULL pointers are written into space that is zero already. */
  lemma Finished(m: seq<Octet>, m1: seq<Octet>, m2: seq<Octet>, args: seq<seq<Octet>>, heapPages: nat)
    requires Fits(args, heapPages) && BuiltUpTo(m, args, |args|)
    requires var p := ArgBlock(args) + (1 + |args|) * WORD_BYTES;
      VMEM_1_BASE <= p && p + 2 * WORD_BYTES <= VMEM_1_BASE + |m1| && |m2| == |m1|
      && Outside(m, m1, p, p + WORD_BYTES) && WordAt(m1, p) == 0
      && Outside(m1, m2, p + WORD_BYTES, p + 2 * WORD_BYTES) && WordAt(m2, p + WORD_BYTES) == 0
    ensures Built(m2, args)
  {
    BlockLayout(args, heapPages);
    var p := ArgBlock(args) + (1 + |args|) * WORD_BYTES;
    WordKept(m, m1, p, p + WORD_BYTES, ArgBlock(args));
    WordKept(m1, m2, p + WORD_BYTES, p + 2 * WORD_BYTES, ArgBlock(args));
    WordZero(m1, p);
    WordZero(m2, p + WORD_BYTES);
    forall j | 0 <= j < |args| ensures Argument(m2, args, j) {
      assert Argument(m, args, j);
      FinishedArgument(m, m1, m2, args, j, heapPages);
    }
    forall a | p <= a < Strings(args) ensures ByteAt(m2, a) == 0 {
      assert ByteAt(m, a) == 0;
      if a < p + WORD_BYTES {
        assert m2[a - VMEM_1_BASE] == m1[a - VMEM_1_BASE];
      } else if a >= p + 2 * WORD_BYTES {
        assert m2[a - VMEM_1_BASE] == m1[a - VMEM_1_BASE] == m[a - VMEM_1_BASE];
      }
    }
  }

  lemma FinishedArgument(m: seq<Octet>, m1: seq<Octet>, m2: seq<Octet>, args: seq<seq<Octet>>, j: nat, heapPages: nat)
    requires Fits(args, heapPages) && j < |args| && Argument(m, args, j)
    requires var p := ArgBlock(args) + (1 + |args|) * WORD_BYTES;
      Outside(m, m1, p, p + WORD_BYTES) && Outside(m1, m2, p + WORD_BYTES, p + 2 * WORD_BYTES)
    ensures Argument(m2, args, j)
  {
    BlockLayout(args, heapPages);
    StringsLayout(args, j);
    var p, pj := ArgBlock(args) + (1 + |args|) * WORD_BYTES, ArgBlock(args) + (1 + j) * WORD_BYTES;
    WordKept(m, m1, p, p + WORD_BYTES, pj);
    WordKept(m1, m2, p + WORD_BYTES, p + 2 * WORD_BYTES, pj);
    StringKept(m, m1, p, p + WORD_BYTES, StringStart(args, j), args[j]);
    StringKept(m1, m2, p + WORD_BYTES, p + 2 * WORD_BYTES, StringStart(args, j), args[j]);
  }

  lemma Begun(m0: seq<Octet>, m: seq<Octet>, args: seq<seq<Octet>>, heapPages: nat)
    requires Fits(args, heapPages) && Region(m0) && Zero(m0, ArgBlock(args), VMEM_1_LIMIT)
    requires Outside(m0, m, ArgBlock(args), ArgBlock(args) + WORD_BYTES)
    requires VMEM_1_BASE <= ArgBlock(args) && ArgBlock(args) + WORD_BYTES <= VMEM_1_BASE + |m| && WordAt(m, ArgBlock(args)) == |args|
    ensures BuiltUpTo(m, args, 0)
  {
    BlockLayout(args, heapPages);
    forall a | ArgBlock(args) + WORD_BYTES <= a < Strings(args) ensures ByteAt(m, a) == 0 {
      assert ByteAt(m0, a) == 0 && m[a - VMEM_1_BASE] == m0[a - VMEM_1_BASE];
    }
  }

  lemma OutsideTrans(m: seq<Octet>, m1: seq<Octet>, m2: seq<Octet>, lo: int, a: int, b: int)
    requires Outside(m, m1, lo, VMEM_1_LIMIT) && Outside(m1, m2, a, b) && lo <= a && b <= VMEM_1_LIMIT
    ensures Outside(m, m2, lo, VMEM_1_LIMIT)
  {
  }

  /** The end of LoadProgram: zero the space, then argc, the pointers with the strings, and the NULL
      pointers. The arguments come from a buffer outside region 1. */
  method BuildArguments(mem: array<Octet>, args: seq<seq<Octet>>, heapPages: nat)
    requires mem.Length == VMEM_1_LIMIT - VMEM_1_BASE && Fits(args, heapPages)
    modifies mem
    ensures Built(mem[..], args) && Outside(old(mem[..]), mem[..], StackPointer(args), VMEM_1_LIMIT)
  {
    ghost var sp, m0 := StackPointer(args), mem[..];
    BlockLayout(args, heapPages);
    var cp := Strings(args);
    var cpp := ArgBlock(args);
    Clear(mem, cpp);
    ghost var m := mem[..];
    StoreWord(mem, cpp, |args|);
    OutsideTrans(m0, m, mem[..], sp, cpp, cpp + WORD_BYTES);
    Begun(m, mem[..], args, heapPages);
    cpp := cpp + WORD_BYTES;
    assert args[..0] == [];
    for i := 0 to |args|
      invariant cpp == ArgBlock(args) + (1 + i) * WORD_BYTES && cp == StringStart(args, i)
      invariant BuiltUpTo(mem[..], args, i) && Outside(m0, mem[..], sp, VMEM_1_LIMIT)
    {
      StringsLayout(args, i);
      cpp, cp := StoreArgument(mem, cpp, cp, args, i, heapPages, m0);
    }
    StoreNulls(mem, cpp, args, heapPages, m0);
  }

  /** One turn of the loop: the pointer, the string, and both cursors move on. */
  method StoreArgument(mem: array<Octet>, cpp: int, cp: int, args: seq<seq<Octet>>, i: nat, ghost heapPages: nat, ghost m0: seq<Octet>)
    returns (cpp': int, cp': int)
    requires Fits(args, heapPages) && i < |args| && BuiltUpTo(mem[..], args, i)
    requires cpp == ArgBlock(args) + (1 + i) * WORD_BYTES && cp == StringStart(args, i)
    requires Outside(m0, mem[..], StackPointer(args), VMEM_1_LIMIT)
    modifies mem
    ensures BuiltUpTo(mem[..], args, i + 1) && Outside(m0, mem[..], StackPointer(args), VMEM_1_LIMIT)
    ensures cpp' == cpp + WORD_BYTES && cp' == StringStart(args, i + 1)
  {
    BlockLayout(args, heapPages);
    StringsLayout(args, i);
    ghost var m := mem[..];
    StoreWord(mem, cpp, cp);
    ghost var m1 := mem[..];
    StoreString(mem, cp, args[i]);
    OutsideTrans(m0, m, m1, StackPointer(args), cpp, cpp + WORD_BYTES);
    OutsideTrans(m0, m1, mem[..], StackPointer(args), cp, cp + |args[i]| + 1);
    OneMore(m, m1, mem[..], args, i, heapPages);
    cpp' := cpp + WORD_BYTES;
    cp' := cp + |args[i]| + 1;
  }

  method StoreNulls(mem: array<Octet>, cpp: int, args: seq<seq<Octet>>, ghost heapPages: nat, ghost m0: seq<Octet>)
    requires Fits(args, heapPages) && BuiltUpTo(mem[..], args, |args|) && cpp == ArgBlock(args) + (1 + |args|) * WORD_BYTES
    requires Outside(m0, mem[..], StackPointer(args), VMEM_1_LIMIT)
    modifies mem
    ensures Built(mem[..], args) && Outside(m0, mem[..], StackPointer(args), VMEM_1_LIMIT)
  {
    BlockLayout(args, heapPages);
    ghost var m := mem[..];
    StoreWord(mem, cpp, 0);
    ghost var m1 := mem[..];
    StoreWord(mem, cpp + WORD_BYTES, 0);
    OutsideTrans(m0, m, m1, StackPointer(args), cpp, cpp + WORD_BYTES);
    OutsideTrans(m0, m1, mem[..], StackPointer(args), cpp + WORD_BYTES, cpp + 2 * WORD_BYTES);
    Finished(m, m1, mem[..], args, heapPages);
  }

  /** memset from `a` to the end of the region. */
  method Clear(mem: array<Octet>, a: int)
    requires mem.Length == VMEM_1_LIMIT - VMEM_1_BASE && VMEM_1_BASE <= a <= VMEM_1_LIMIT
    modifies mem
    ensures Zero(mem[..], a, VMEM_1_LIMIT) && Outside(old(mem[..]), mem[..], a, VMEM_1_LIMIT)
  {
    for k := a - VMEM_1_BASE to mem.Length
      invariant forall j | a - VMEM_1_BASE <= j < k :: mem[j] == 0
      invariant forall j | 0 <= j < a - VMEM_1_BASE :: mem[j] == old(mem[j])
    {
      mem[k] := 0;
    }
  }

  lemma WordZero(m: seq<Octet>, a: int)
    requires VMEM_1_BASE <= a && a + WORD_BYTES <= VMEM_1_BASE + |m| && WordAt(m, a) == 0
    ensures ByteAt(m, a) == 0 && ByteAt(m, a + 1) == 0 && ByteAt(m, a + 2) == 0 && ByteAt(m, a + 3) == 0
  {
  }
}
