/** The scheduler, the synchronisation objects and the terminals as a step machine. A step
    runs from a trap, or from the point where a suspended kernel call resumes, to the
    next context switch or return to user mode; the kernel is not preemptible in between. */
module KernelState {
  import opened Pipe

  type Pid = nat
  type Id = nat

  const IDLE: Pid := 0
  const INIT: Pid := 1
  const SUCCESS := 0
  const ERROR := -1
  const NUM_TERMINALS := 4
  const TERMINAL_MAX_LINE := 1024

  /** Where a process continues when it runs again; on the real machine, its kernel stack. */
  datatype Resume =
    | User
    | Preempted
    | AfterFork(child: Pid)
    | AfterWait
    | AfterDelay
    | AfterAcquire(lock: Id)
    | AfterCvarWait(cvar: Id, lock: Id)
    | AfterPipeRead(pipe: Id, len: nat)
    | AfterTtyRead(tty: nat)
    | AfterTtyWrite(tty: nat, len: nat, kill: bool)

  /** The lists a process can be on: the ready queue, the clock list and the waiting lists of
      locks, cvars, pipes and terminals. */
  datatype Place =
    | Ready
    | Delayed
    | LockWait(lock: Id)
    | CvarWait(cvar: Id)
    | PipeWait(pipe: Id)
    | TtyReceive(tty: nat)
    | TtyTransmit(tty: nat)

  datatype Parent = NoParent | Parent(pid: Pid)

  /** A process control block. `rc`, `status` and `data` are what the last kernel call gave the
      user program; `rx` and `tx` are the receive buffer and the bytes from the transmit pointer on,
      and `rxBuffer` says whether a receive buffer was ever allocated. */
  datatype Proc = Proc(pc: Resume, alive: bool, parent: Parent, live: seq<Pid>, zombies: seq<Pid>,
                       owned: seq<Id>, waiting: bool, ticks: int, exitStatus: int,
                       rxBuffer: bool, rxLen: nat, rx: seq<Byte>, tx: seq<Byte>,
                       rc: int, status: int, data: seq<Byte>)

  datatype Lock = Lock(acquired: bool, owner: Pid)

  /** Halted: init exited. Hung: an exit loops forever on a lock it cannot release.
      Panic: an assert failed, or the terminal hardware was misused. */
  datatype Mode = Running | Halted | Hung | Panic

  /** `linked` holds the resources still on the kernel's lists; `busy` holds, per terminal, the
      bytes passed to TtyTransmit whose interrupt is still to come. */
  datatype State = State(mode: Mode, current: Pid, procs: map<Pid, Proc>, queues: map<Place, seq<Pid>>,
                         locks: map<Id, Lock>, cvars: set<Id>, pipes: map<Id, PipeBuffer>, linked: set<Id>,
                         lines: map<nat, seq<seq<Byte>>>, busy: map<nat, seq<Byte>>,
                         nextPid: Pid, nextId: Id)

  function Q(s: State, a: Place): seq<Pid> {
    if a in s.queues then s.queues[a] else []
  }

  function Lines(s: State, t: nat): seq<seq<Byte>> {
    if t in s.lines then s.lines[t] else []
  }

  function NewProc(pc: Resume, parent: Parent): Proc {
    Proc(pc, true, parent, [], [], [], false, 0, 0, false, 0, [], [], 0, 0, [])
  }

  /** ListRemoveById on a list without duplicates. */
  function Without(q: seq<nat>, x: nat): (r: seq<nat>)
    ensures x !in q ==> r == q
    ensures forall y :: y in r ==> y in q
    ensures forall y :: y in q && y != x ==> y in r
  {
    if q == [] then [] else if q[0] == x then q[1..] else [q[0]] + Without(q[1..], x)
  }

  // ---- small steps ----

  function SetProc(s: State, p: Pid, f: Proc): State {
    s.(procs := s.procs[p := f])
  }

  function SetQ(s: State, a: Place, q: seq<Pid>): State {
    s.(queues := s.queues[a := q])
  }

  function Append(s: State, a: Place, p: Pid): State {
    SetQ(s, a, Q(s, a) + [p])
  }

  /** A process leaves a waiting list for the back of the ready queue. */
  function Wake(s: State, a: Place, p: Pid): State {
    Append(SetQ(s, a, Without(Q(s, a), p)), Ready, p)
  }

  /** Return from a trap to user mode with `rc` in register 0. */
  function Return(s: State, rc: int): State
    requires s.current in s.procs
  {
    SetProc(s, s.current, s.procs[s.current].(pc := User, rc := rc))
  }

  /** SwitchToNextProc: the oldest ready process, or idle. */
  function Dispatch(s: State): State {
    if Q(s, Ready) == [] then s.(current := IDLE)
    else SetQ(s, Ready, Q(s, Ready)[1..]).(current := Q(s, Ready)[0])
  }

  /** The current process joins a list, remembers where to resume, and gives up the CPU. */
  function Block(s: State, a: Place, pc: Resume): State
    requires s.current in s.procs
  {
    Dispatch(Append(SetProc(s, s.current, s.procs[s.current].(pc := pc)), a, s.current))
  }

  // ---- processes ----

  /** KernelFork; `memory` says whether there are frames for the child. */
  function Fork(s: State, memory: bool): State
    requires s.current in s.procs
  {
    var child, p := s.nextPid, s.current;
    if !memory then Return(s.(nextPid := child + 1), ERROR)
    else
      var parent := s.procs[p].(pc := AfterFork(child), live := s.procs[p].live + [child]);
      s.(nextPid := child + 1, procs := s.procs[p := parent][child := NewProc(AfterFork(child), Parent(p))],
         queues := s.queues[Ready := Q(s, Ready) + [p]], current := child)
  }

  /** The caller gives up a lock nobody waits for. */
  function FreeLock(s: State, id: Id): State
    requires s.current in s.procs && id in s.locks
  {
    var me := s.procs[s.current];
    s.(procs := s.procs[s.current := me.(owned := Without(me.owned, id))],
       locks := s.locks[id := s.locks[id].(acquired := false)])
  }

  /** The caller gives a lock to its oldest waiter, who becomes ready. */
  function HandOver(s: State, id: Id): State
    requires s.current in s.procs && Q(s, LockWait(id)) != [] && Q(s, LockWait(id))[0] in s.procs
  {
    var me, w := s.procs[s.current], Q(s, LockWait(id))[0];
    var procs := s.procs[s.current := me.(owned := Without(me.owned, id))];
    s.(procs := procs[w := procs[w].(owned := procs[w].owned + [id])],
       locks := s.locks[id := Lock(true, w)],
       queues := s.queues[LockWait(id) := Q(s, LockWait(id))[1..]][Ready := Q(s, Ready) + [w]])
  }

  /** KernelRelease without its return value; the caller holds the lock. The list of owned locks
      stores ids as data pointers, so its assert also fails for the id 0. */
  function Unlock(s: State, id: Id): State
    requires s.current in s.procs && id in s.locks
  {
    if id == 0 || id !in s.procs[s.current].owned then s.(mode := Panic)
    else if Q(s, LockWait(id)) == [] || Q(s, LockWait(id))[0] !in s.procs then FreeLock(s, id)
    else HandOver(s, id)
  }

  predicate Holds(s: State, p: Pid, id: Id) {
    id in s.locks && s.locks[id].acquired && s.locks[id].owner == p
  }

  /** KernelRelease succeeds: the lock is on the kernel's list and the caller holds it. */
  predicate CanRelease(s: State, id: Id) {
    id in s.linked && Holds(s, s.current, id)
  }

  function Release(s: State, id: Id): State
    requires s.current in s.procs
  {
    if CanRelease(s, id) then Return(Unlock(s, id), SUCCESS) else Return(s, ERROR)
  }

  /** KernelExit's loop over the locks the process owns, oldest first. A lock that is no
      longer on the kernel's list cannot be released, and the loop never ends. */
  function ReleaseAll(s: State, ids: seq<Id>): State
    requires s.current in s.procs
    decreases |ids|
  {
    if ids == [] then s
    else if !CanRelease(s, ids[0]) then s.(mode := Hung)
    else if Unlock(s, ids[0]).mode == Panic then Unlock(s, ids[0])
    else ReleaseAll(Unlock(s, ids[0]), ids[1..])
  }

  /** KernelExit empties its lists of children: live ones lose their parent, zombies are freed. */
  function Orphan(s: State): State
    requires s.current in s.procs
  {
    var me := s.procs[s.current];
    s.(procs := map c | c in s.procs && (c == s.current || c !in me.zombies) ::
      if c == s.current then me.(live := [], zombies := [])
      else if c in me.live then s.procs[c].(parent := NoParent)
      else s.procs[c])
  }

  /** Without a parent the process is freed. Otherwise it becomes the parent's youngest
      zombie, and a parent blocked in Wait is made ready. */
  function Bury(s: State, status: int): State
    requires s.current in s.procs
  {
    var p, me := s.current, s.procs[s.current];
    if me.parent.NoParent? || me.parent.pid !in s.procs || me.parent.pid == p then s.(procs := s.procs - {p})
    else
      var pp := me.parent.pid;
      var parent := s.procs[pp].(live := Without(s.procs[pp].live, p), zombies := s.procs[pp].zombies + [p], waiting := false);
      var s1 := s.(procs := s.procs[p := me.(alive := false, exitStatus := status)][pp := parent]);
      if s.procs[pp].waiting then Append(s1, Ready, pp) else s1
  }

  /** KernelExit once the locks are gone. */
  function Depart(s: State, status: int): State
    requires s.current in s.procs
  {
    Dispatch(Bury(Orphan(s), status))
  }

  function Exit(s: State, status: int): State
    requires s.current in s.procs
  {
    if s.current == INIT then s.(mode := Halted)
    else
      var s1 := ReleaseAll(s, s.procs[s.current].owned);
      if s1.mode == Hung || s1.mode == Panic || s1.current !in s1.procs then s1 else Depart(s1, status)
  }

  /** The caller takes its oldest zombie child and frees it. */
  function Collect(s: State): State
    requires s.current in s.procs
  {
    var me := s.procs[s.current];
    if me.zombies == [] || me.zombies[0] !in s.procs then s.(mode := Panic)
    else
      var child := me.zombies[0];
      var mine := me.(zombies := me.zombies[1..], status := s.procs[child].exitStatus, pc := User, rc := SUCCESS);
      s.(procs := (s.procs - {child})[s.current := mine])
  }

  /** The caller blocks until a child exits. */
  function Waits(s: State): State
    requires s.current in s.procs
  {
    SetProc(s, s.current, s.procs[s.current].(waiting := true, pc := AfterWait))
  }

  function Wait(s: State): State
    requires s.current in s.procs
  {
    var me := s.procs[s.current];
    if me.zombies != [] then Collect(s)
    else if me.live == [] then Return(s, ERROR)
    else Dispatch(Waits(s))
  }

  // ---- clock ----

  function Delay(s: State, n: int): State
    requires s.current in s.procs
  {
    if n < 0 then Return(s, ERROR)
    else if n == 0 then Return(s, SUCCESS)
    else Block(SetProc(s, s.current, s.procs[s.current].(ticks := n)), Delayed, AfterDelay)
  }

  function TicksOf(s: State, p: Pid): int {
    if p in s.procs then s.procs[p].ticks else 0
  }

  /** The delayed processes of `q` whose last tick this is. */
  function Expired(s: State, q: seq<Pid>): seq<Pid> {
    if q == [] then [] else (if TicksOf(s, q[0]) <= 1 then [q[0]] else []) + Expired(s, q[1..])
  }

  function Remaining(s: State, q: seq<Pid>): seq<Pid> {
    if q == [] then [] else (if TicksOf(s, q[0]) <= 1 then [] else [q[0]]) + Remaining(s, q[1..])
  }

  /** Every delayed process loses a tick; those that reach zero become ready in list order. */
  function Tick(s: State): State {
    var d := Q(s, Delayed);
    var ticked := map p | p in s.procs :: if p in d then s.procs[p].(ticks := s.procs[p].ticks - 1) else s.procs[p];
    s.(procs := ticked,
       queues := if Expired(s, d) == [] then s.queues
                 else s.queues[Delayed := Remaining(s, d)][Ready := Q(s, Ready) + Expired(s, d)])
  }

  function Clock(s: State): State
    requires s.current in s.procs
  {
    var s1 := Tick(s);
    var s2 := SetProc(s1, s.current, s1.procs[s.current].(pc := Preempted));
    Dispatch(if s.current != IDLE then Append(s2, Ready, s.current) else s2)
  }

  // ---- locks and condition variables ----

  function NewResource(s: State): State {
    s.(linked := s.linked + {s.nextId}, nextId := s.nextId + 1)
  }

  /** The caller returns SUCCESS with the new id stored through its pointer argument. */
  function ReturnId(s: State, id: Id): State
    requires s.current in s.procs
  {
    var s1 := Return(s, SUCCESS);
    SetProc(s1, s.current, s1.procs[s.current].(status := id))
  }

  function LockInit(s: State): State
    requires s.current in s.procs
  {
    ReturnId(NewResource(s).(locks := s.locks[s.nextId := Lock(false, 0)]), s.nextId)
  }

  function CvarInit(s: State): State
    requires s.current in s.procs
  {
    ReturnId(NewResource(s).(cvars := s.cvars + {s.nextId}), s.nextId)
  }

  function PipeInit(s: State): State
    requires s.current in s.procs
  {
    ReturnId(NewResource(s).(pipes := s.pipes[s.nextId := EMPTY_PIPE]), s.nextId)
  }

  function Acquire(s: State, id: Id): State
    requires s.current in s.procs
  {
    var me := s.procs[s.current];
    if id !in s.linked || id !in s.locks then Return(s, ERROR)
    else if Holds(s, s.current, id) then Return(s, SUCCESS)
    else if !s.locks[id].acquired then
      Return(SetProc(s, s.current, me.(owned := me.owned + [id])).(locks := s.locks[id := Lock(true, s.current)]), SUCCESS)
    else Block(s, LockWait(id), AfterAcquire(id))
  }

  /** Back from the lock's waiting list: the three asserts of KernelAcquire. */
  function Acquired(s: State, id: Id): State
    requires s.current in s.procs
  {
    if Holds(s, s.current, id) && id in s.procs[s.current].owned && id != 0 then Return(s, SUCCESS)
    else s.(mode := Panic)
  }

  function Signal(s: State, id: Id): State
    requires s.current in s.procs
  {
    if id !in s.linked || id !in s.cvars then Return(s, ERROR)
    else if Q(s, CvarWait(id)) == [] then Return(s, SUCCESS)
    else Return(Wake(s, CvarWait(id), Q(s, CvarWait(id))[0]), SUCCESS)
  }

  function Broadcast(s: State, id: Id): State
    requires s.current in s.procs
  {
    if id !in s.linked || id !in s.cvars then Return(s, ERROR)
    else if Q(s, CvarWait(id)) == [] then Return(s, SUCCESS)
    else Return(SetQ(SetQ(s, Ready, Q(s, Ready) + Q(s, CvarWait(id))), CvarWait(id), []), SUCCESS)
  }

  function WaitOnCvar(s: State, id: Id, lock: Id): State
    requires s.current in s.procs
  {
    if id !in s.linked || id !in s.cvars || !CanRelease(s, lock) then Return(s, ERROR)
    else
      var s1 := Unlock(s, lock);
      if s1.mode != Panic && s1.current in s1.procs then Block(s1, CvarWait(id), AfterCvarWait(id, lock)) else s1
  }

  /** Nobody holds the resource or waits for it. */
  predicate Idle(s: State, id: Id) {
    (id in s.locks ==> !s.locks[id].acquired && Q(s, LockWait(id)) == [])
    && (id in s.cvars ==> Q(s, CvarWait(id)) == [])
    && (id in s.pipes ==> Q(s, PipeWait(id)) == [])
  }

  /** KernelReclaim takes the resource off the kernel's list first and checks afterwards. */
  function Reclaim(s: State, id: Id): State
    requires s.current in s.procs
  {
    if id in s.linked && Idle(s, id) then Return(s.(linked := s.linked - {id}), SUCCESS)
    else Return(s.(linked := s.linked - {id}), ERROR)
  }

  // ---- pipes ----

  function ReadLoop(s: State, id: Id, len: nat): State
    requires s.current in s.procs && id in s.pipes && s.pipes[id].Valid()
  {
    var b := s.pipes[id];
    if b.available < len then Block(s, PipeWait(id), AfterPipeRead(id, len))
    else
      var s1 := Return(s.(pipes := s.pipes[id := ReadBuffer(b, len)]), len);
      SetProc(s1, s.current, s1.procs[s.current].(data := b.Unread()[..len]))
  }

  function PipeRead(s: State, id: Id, len: int): State
    requires s.current in s.procs
  {
    if len < 0 then Return(s, ERROR)
    else if len == 0 then Return(s, SUCCESS)
    else if id !in s.linked || id !in s.pipes || !s.pipes[id].Valid() then Return(s, ERROR)
    else ReadLoop(s, id, len)
  }

  /** The number of bytes a process asked a pipe for; the list node's id. */
  function Wanted(s: State, p: Pid): nat {
    if p in s.procs && s.procs[p].pc.AfterPipeRead? then s.procs[p].pc.len else 0
  }

  /** ListFindFirstLessThanIdAndRemove: the first reader that `available` bytes satisfy. */
  function FirstSatisfied(s: State, q: seq<Pid>, available: nat): (r: seq<Pid>)
    ensures |r| <= 1 && forall p :: p in r ==> p in q && Wanted(s, p) <= available
  {
    if q == [] then [] else if Wanted(s, q[0]) <= available then [q[0]] else FirstSatisfied(s, q[1..], available)
  }

  function PipeWrite(s: State, id: Id, bytes: seq<Byte>): State
    requires s.current in s.procs
  {
    if bytes == [] then Return(s, SUCCESS)
    else if id !in s.linked || id !in s.pipes || !s.pipes[id].Valid() then Return(s, ERROR)
    else if |bytes| > MakeRoom(s.pipes[id], |bytes|).Spots() then s.(mode := Panic)
    else
      var b := WriteBuffer(s.pipes[id], bytes);
      var s1 := Return(s.(pipes := s.pipes[id := b]), |bytes|);
      var found := FirstSatisfied(s, Q(s, PipeWait(id)), b.available);
      if found == [] then s1 else Wake(s1, PipeWait(id), found[0])
  }

  // ---- terminals ----

  function Chunk(bytes: seq<Byte>): seq<Byte> {
    if |bytes| > TERMINAL_MAX_LINE then bytes[..TERMINAL_MAX_LINE] else bytes
  }

  /** TtyTransmit; the hardware takes one chunk at a time. */
  function Transmit(s: State, t: nat, chunk: seq<Byte>): State {
    if t in s.busy then s.(mode := Panic) else s.(busy := s.busy[t := chunk])
  }

  /** KernelTtyWriteInternal; `kill` is set when a fault handler prints before it exits. */
  function TtyWrite(s: State, t: nat, bytes: seq<Byte>, kill: bool): State
    requires s.current in s.procs
  {
    if t > NUM_TERMINALS then s.(mode := Panic)
    else
      var s1 := SetProc(s, s.current, s.procs[s.current].(tx := bytes));
      var s2 := if Q(s, TtyTransmit(t)) == [] then Transmit(s1, t, Chunk(bytes)) else s1;
      Block(s2, TtyTransmit(t), AfterTtyWrite(t, |bytes|, kill))
  }

  /** TrapTtyTransmit: the outstanding chunk is done. */
  function Transmitted(s: State, t: nat): State {
    var s0 := s.(busy := s.busy - {t});
    var q := Q(s, TtyTransmit(t));
    if q == [] || q[0] !in s.procs then s0.(mode := Panic)
    else
      var head := s.procs[q[0]];
      if |head.tx| > TERMINAL_MAX_LINE then
        var rest := head.tx[TERMINAL_MAX_LINE..];
        Transmit(SetProc(s0, q[0], head.(tx := rest)), t, Chunk(rest))
      else
        var s1 := Wake(s0, TtyTransmit(t), q[0]);
        if |q| == 1 || q[1] !in s.procs then s1 else Transmit(s1, t, Chunk(s.procs[q[1]].tx))
  }

  /** The leftover KernelTtyRead keeps of a line longer than the read: it copies from the start
      of the line, not from where the read stopped. */
  function Leftover(line: seq<Byte>, len: nat): seq<Byte>
    requires len <= |line|
  {
    line[..|line| - len]
  }

  function TtyRead(s: State, t: int, len: int): State
    requires s.current in s.procs
  {
    if t < 0 || t >= NUM_TERMINALS || len < 0 then Return(s, ERROR)
    else if Lines(s, t) != [] then
      var line, rest := Lines(s, t)[0], Lines(s, t)[1..];
      var n := if |line| > len then len else |line|;
      var s1 := Return(s.(lines := s.lines[t := if |line| > len then [Leftover(line, len)] + rest else rest]), n);
      SetProc(s1, s.current, s1.procs[s.current].(data := line[..n]))
    else
      Block(SetProc(s, s.current, s.procs[s.current].(rxBuffer := true, rxLen := len, rx := [])), TtyReceive(t), AfterTtyRead(t))
  }

  /** TrapTtyRecieve's loop: waiting readers take slices of the input in queue order. */
  function Deliver(s: State, t: nat, input: seq<Byte>): State
    decreases |Q(s, TtyReceive(t))|
  {
    var q := Q(s, TtyReceive(t));
    if q == [] || q[0] !in s.procs then
      if input == [] then s else s.(lines := s.lines[t := Lines(s, t) + [input]])
    else if input == [] then s
    else if !s.procs[q[0]].rxBuffer then s.(mode := Panic)
    else
      var p := q[0];
      var n := if |input| <= s.procs[p].rxLen then |input| else s.procs[p].rxLen;
      var s1 := SetProc(s, p, s.procs[p].(rx := input[..n], rxLen := n));
      Deliver(Append(SetQ(s1, TtyReceive(t), q[1..]), Ready, p), t, input[n..])
  }

  function Received(s: State, t: nat, input: seq<Byte>): State {
    if Q(s, TtyReceive(t)) == [] then s.(lines := s.lines[t := Lines(s, t) + [input]])
    else Deliver(s, t, input)
  }

  // ---- the step machine ----

  datatype Event =
    | EFork(memory: bool)
    | EExit(status: int)
    | EWait
    | EDelay(ticks: int)
    | ELockInit
    | EAcquire(id: Id)
    | ERelease(id: Id)
    | ECvarInit
    | ESignal(id: Id)
    | EBroadcast(id: Id)
    | ECvarWait(id: Id, lock: Id)
    | EReclaim(id: Id)
    | EPipeInit
    | EPipeRead(id: Id, len: int)
    | EPipeWrite(id: Id, bytes: seq<Byte>)
    | ETtyRead(tty: int, len: int)
    | ETtyWrite(tty: int, bytes: seq<Byte>)
    | EKill(message: seq<Byte>)
    | EClock
    | EReceived(tty: int, line: seq<Byte>)
    | ETransmitted(tty: int)
    | EResume

  predicate Interrupt(e: Event) {
    e.EClock? || e.EReceived? || e.ETransmitted?
  }

  /** User programs make calls, interrupts arrive in user mode, and a process that has just
      been switched to first finishes the call it was suspended in. */
  predicate Enabled(s: State, e: Event) {
    s.mode == Running && s.current in s.procs
    && (e.EResume? <==> s.procs[s.current].pc != User)
    && (s.current == IDLE ==> e.EResume? || Interrupt(e))
    && (e.EReceived? ==> 0 <= e.tty < NUM_TERMINALS)
    && (e.ETransmitted? ==> e.tty in s.busy)
  }

  function Continue(s: State): State
    requires s.current in s.procs
  {
    var me := s.procs[s.current];
    match me.pc
    case User => s
    case Preempted => SetProc(s, s.current, me.(pc := User))
    case AfterFork(child) => Return(s, if child == s.current then 0 else child)
    case AfterWait => Collect(s)
    case AfterDelay => Return(s, SUCCESS)
    case AfterAcquire(lock) => Acquired(s, lock)
    case AfterCvarWait(_, lock) => Acquire(s, lock)
    case AfterPipeRead(id, len) => if id in s.pipes && s.pipes[id].Valid() then ReadLoop(s, id, len) else s.(mode := Panic)
    case AfterTtyRead(_) =>
      var s1 := Return(s, |me.rx|);
      SetProc(s1, s.current, s1.procs[s.current].(data := me.rx))
    case AfterTtyWrite(_, len, kill) => if kill then Exit(s, ERROR) else Return(s, len)
  }

  function Step(s: State, e: Event): State
    requires Enabled(s, e)
  {
    match e
    case EFork(memory) => Fork(s, memory)
    case EExit(status) => Exit(s, status)
    case EWait => Wait(s)
    case EDelay(n) => Delay(s, n)
    case ELockInit => LockInit(s)
    case EAcquire(id) => Acquire(s, id)
    case ERelease(id) => Release(s, id)
    case ECvarInit => CvarInit(s)
    case ESignal(id) => Signal(s, id)
    case EBroadcast(id) => Broadcast(s, id)
    case ECvarWait(id, lock) => WaitOnCvar(s, id, lock)
    case EReclaim(id) => Reclaim(s, id)
    case EPipeInit => PipeInit(s)
    case EPipeRead(id, len) => PipeRead(s, id, len)
    case EPipeWrite(id, bytes) => PipeWrite(s, id, bytes)
    case ETtyRead(t, len) => TtyRead(s, t, len)
    case ETtyWrite(t, bytes) =>
      if t < 0 || t >= NUM_TERMINALS then Return(s, ERROR) else TtyWrite(s, t, bytes, false)
    case EKill(message) => TtyWrite(s, 0, message, true)
    case EClock => Clock(s)
    case EReceived(t, line) => Received(s, t, line)
    case ETransmitted(t) => Transmitted(s, t)
    case EResume => Continue(s)
  }

  /** KernelStart's last act: idle runs, init waits in the ready queue. */
  const BOOT: State := State(Running, IDLE, map[IDLE := NewProc(User, NoParent), INIT := NewProc(Preempted, NoParent)],
                             map[Ready := [INIT]], map[], {}, map[], {}, map[], map[], 2, 1)
}
