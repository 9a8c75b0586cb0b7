# THEYNIX kernel model

THEYNIX is a small uniprocessor kernel. This project models what its logic does to memory, processes
and devices, and proves properties of it over all inputs and all runs. It has four parts.

**Memory, address spaces, fork and switching.** `Hardware` is the machine: physical frames of words, the
two page tables the hardware walks, REG_PTBR1, and a TLB that may drop entries at any time and may hold
stale ones until they are flushed. Every load and store of the kernel goes through translation. `PMem` is
the free-frame list kept inside the free frames, `VMem` mapping and unmapping, `Copy` the sliding copies
of fork and of the kernel stack, `Process` the kernel calls that change an address space, and context
switching. Each method is proved against a function on values (`AddressSpace`), and `AddressSpace` says
what break, stack growth, load and fork come to: when they succeed, and the frame and protection of every
page. `Ownership` composes these functions into a machine over process creation, fork, exec, brk, stack growth, exit and switching, and
proves who owns a frame in every run.

**The scheduler and the synchronisation objects.** `KernelState` is a step machine. A step runs from a
kernel call or trap, or from the point where a suspended call resumes, to the next switch or return; the
resume point of every process is part of the state. The invariant has five groups: where processes are
(`Placement`), locks (`Holding`), the process family (`Family`), terminals and resources
(`KernelInvariant`). `KernelSteps`, `ExitSteps`, `CallSteps`, `DataSteps` and `TtySteps` show that every
step keeps it, `KernelRuns` draws the conclusions for all runs from boot, and `StepEffects` records what
each event leaves alone (`KinSteps` for families). On top of these `DelayRuns`, `PipeRuns`, `TtyRuns`,
`LockRuns`, `QueueRuns`, `CvarRuns`, `ZombieRuns` and `SwitchRuns` prove the properties of single services
over whole runs. `SysCalls` is the same kernel as a class whose methods update its fields one statement at
a time; each is proved to perform the step of the step machine. `Outcomes`, `HandOvers` and `Events` say
what every event means without naming the step functions: who returned with what, who waits where, who
gets the locks, who runs next, and that nobody else changed. `ReturnRuns` and `ReadRuns` follow a suspended
call over any run to its result. `Pipe` is the growing and compacting byte buffer, on an array.

**The list.** `List` is the doubly linked list with sentinel and optional hash index, on linked nodes,
proved against sequences of items.

**The argument block.** `LoadArgs` is the address arithmetic and the writes with which LoadProgram puts
argc, argv and the strings on a new stack, and the proof that a program finds its arguments there.

Some code does not do what it is meant to do. The model does what the code does, and says exactly when
the intended property holds: `Ownership.StepConserves` (a failing fork can lose the child's kernel stack
frames), `LockRuns.BusyReclaimHangs` and `LockRuns.ExitHangs` (reclaiming a held lock makes its holder's
exit loop forever), `TtyRuns.LeftoverIsRest` (a partial read of a buffered line keeps the wrong bytes),
`PipeRuns.WriteWakesOne` (a write wakes at most one reader), `Process.TrapMemory` (the range check lets
VMEM_1_LIMIT pass), and `PMem.FrameList.InitializePhysicalMemoryManagement` (the frame at
KERNEL_STACK_LIMIT is never handed out). `Ownership.ForkLoses` and `FailingRuns` reach three of these states
by concrete runs from boot.

## Model

| member | source | states |
|---|---|---|
| `PMem.FrameList.InitializePhysicalMemoryManagement` | PMem.c:36-54 | boot builds the free queue: the frames from the kernel break up to the kernel stack, then every frame strictly above the one at KERNEL_STACK_LIMIT, in order; the table in REG_PTBR1 comes back as it was |
| `PMem.FrameList.SetNextAndPrevFreeFrameNumbers` | PMem.c:100-139 | from any TLB state exactly words 0 and 1 of the named frame are written through the remapped window page, the table entry is restored, and head and tail move only if they named the frame |
| `PMem.FrameList.GetNextFreeFrameNumber` | PMem.c:161-188 | the successor word of a free frame, or -1 for the tail, read through the window without changing the table |
| `PMem.AppendKeepsLinks` | PMem.c:144-153 | the two link updates of an append leave a forwards and backwards linked queue of distinct frames, also for a single frame, and touch no frame outside it |
| `PMem.FrameList.AddToLinkedList` | PMem.c:144-153 | the linked list kept inside the frames refines a FIFO queue: append adds the frame at the back and changes no word of a frame that is neither free nor the one released |
| `PMem.FrameList.ReleaseUsedFrame` | PMem.c:88-90 | a released frame becomes the youngest free frame, whatever the TLB held |
| `PMem.FrameList.GetUnusedFrame` | PMem.c:62-83 | pops the oldest free frame into the pfn of the given entry, which may be the window entry itself; fails exactly when no frame is free and then changes nothing |
| `VMem.MapNewRegion1Pages` | VMem.c:34-61 | maps the pages to the oldest free frames in page order, or restores the free queue exactly, same frames in the same order, when they do not suffice |
| `VMem.RollBack` | VMem.c:44-52 | the failure path: the frames taken so far were the whole queue and go back in the order they were taken |
| `VMem.UnmapRegion1Pages` | VMem.c:68-84 | the pages become invalid and their frames are appended to the free queue in page order |
| `VMem.FreePages` | VMem.c:156-182 | exactly the frames of the valid entries are appended to the free queue in page order and the entries become invalid (FreeRegion1PageTable and FreeRegion0StackPages) |
| `VMem.ChangeProtRegion1Pages` | VMem.c:91-104 | only the protections of the named valid pages change |
| `Copy.CopyPageData` | Kernel.c:354-379 | one page is copied word by word through translation; the destination frame equals the source frame and no other frame changes, with TLB entries evicted and refilled at any time |
| `Copy.SlideCopy` | Kernel.c:305-328 | the sliding one-slot copy, last page first through slot 0, copies every valid page of the window into its own new frame although the window is overwritten from the top meanwhile |
| `Copy.CopyRegion1Data` | Kernel.c:295-341 | copying through the temporary table leaves the parent's frames and REG_PTBR1 as before and no region 1 entry in the TLB, and the child gets the parent's protections |
| `Copy.UseKernelStackForProc` | Kernel.c:205-211 | the kernel stack window of region 0 becomes the entries of the process and nothing else of the table changes |
| `Copy.CopyKernelStackPageTableAndData` | Kernel.c:224-245 | the live kernel stack is copied word for word into the frames of the new process through its own window; the source's frames keep their contents |
| `Copy.RollBackAllocation` | Kernel.c:279-291 | out of frames in fork's region 1 copy: the free queue is restored exactly and only the failing entry stays marked valid |
| `Copy.AllocateLike` | Kernel.c:274-293 | one fresh frame per valid page of the source, the oldest free frames in page order, succeeding exactly when they suffice |
| `Copy.CopyRegion1PageTableAndData` | Kernel.c:266-349 | fork's deep copy from any TLB state: every valid page of the child has the parent's contents and protections on a frame of its own that was free, invalid pages stay invalid, and the parent's table, frames and REG_PTBR1 are as before; without enough frames the free queue is restored in order |
| `AddressSpace.BrkRoundsUp` | SystemCalls.c:341-352 | an accepted break satisfies addr <= VMEM_1_BASE + brk * PAGESIZE < addr + PAGESIZE in 32-bit arithmetic |
| `AddressSpace.BrkKeepsLayout` | SystemCalls.c:341-370 | after any brk, accepted, refused or rolled back, the valid pages are exactly those below the break and those of the stack, with a blank page between |
| `AddressSpace.BrkOutcome` | SystemCalls.c:341-370 | a break moves exactly when the page above the address is in region 1 and below the stack and the frames for new pages suffice; which frames new pages take, where given up frames go, and what stays, also on failure |
| `AddressSpace.GrowResult` | Traps.c:171-202 | growing the stack succeeds exactly when the frames suffice; the new pages take the oldest frames from the top down; what stays mapped when they run out |
| `AddressSpace.GrowKeepsLayout` | Traps.c:171-202 | a completed stack growth restores that layout with the faulting page as the new bottom |
| `AddressSpace.MapSegmentsResult` | LoadProgram.c:205-236 | mapping text, data and stack succeeds exactly when the free frames suffice and then the valid pages are the old ones and those of the segments |
| `AddressSpace.LoadMakesLayout` | LoadProgram.c:131-236 | a loaded program has the layout whatever was mapped before; loading succeeds exactly when a page stays blank and the free frames with the old ones suffice |
| `AddressSpace.LoadResult` | LoadProgram.c:131-285 | when loading succeeds, and frame and protection of every page afterwards: text executable and read-only, data and stack writable, in segment order on the oldest of the free and released frames; also for a load that fails |
| `AddressSpace.ForkResult` | SystemCalls.c:89-113 | fork succeeds exactly when kernel stack and pages find frames; the child's pages have the parent's protections and the frames behind those of its kernel stack, in page order |
| `Process.KernelBrk` | SystemCalls.c:341-370 | the break moves exactly when the rounded page is below the stack and the frames for new pages suffice; new pages take the oldest frames in page order, frames given up go to the back of the queue in page order, everything else is as before, and a refused break changes no break, no queue and no valid bit; frames that are neither freed nor taken keep their contents, the TLB gains nothing, and the kernel still runs on the stack of the process |
| `Process.TrapMemory` | Traps.c:149-234 | which faulting addresses grow the stack and which are refused and why, in both directions; growing succeeds exactly when the frames suffice and what it then changes; VMEM_1_LIMIT itself passes the range check although no entry belongs to it; for a process with the layout the branch for an unmapped page inside the stack is never taken |
| `Process.GrowUserStack` | Traps.c:171-202 | succeeds exactly when the frames for the pages from the old bottom down to the faulting one suffice; these take the oldest frames from the top down, nothing else changes, and the bottom is then the faulting page; when the frames run out the pages that got one stay mapped and the bottom is not moved |
| `Process.ReleaseMemory` | SystemCalls.c:268-273 | exit appends the frames of region 1 and then of the kernel stack to the free queue |
| `Process.LoadPages` | LoadProgram.c:131-285 | loading succeeds exactly when a page stays blank and the free frames with the released ones suffice; text, data and stack take these frames in this order; text can be executed and not written, data and stack written and not executed, and every other page is blank; what a load that fails leaves mapped |
| `Process.MapAll` | LoadProgram.c:205-236 | the successive mappings, ended by the first that fails |
| `Process.FinishLoad` | LoadProgram.c:285-326 | text becomes read-only and executable and the TLB holds nothing of region 1 |
| `Process.NewBlankPCBWithPageTables` | PCB.c:40-75 | a process with blank region 1 and a kernel stack on the oldest free frames, or nothing at all and the free queue as it was |
| `Process.ForkMemory` | SystemCalls.c:89-113 | the memory half of fork, exactly when it fails, what a failing fork does to the free queue, and that the parent still runs on its own stack |
| `Process.InitializeKernelContext` | Kernel.c:481-486 | a process that never ran gets the kernel context and a word-exact copy of the kernel stack of the process being left, whose frames do not change |
| `Process.SaveKernelContextAndSwitch` | Kernel.c:470-495 | the context of the process being left is saved, the window and the TLB become those of the next process, and only a process that never ran is given a copy of the stack being left |
| `Process.SwitchToProc` | Kernel.c:426-495 | after a switch REG_PTBR1, the kernel stack window and the TLB are those of the next process, the old one's contexts are saved, and the CPU continues with the contexts the next one saved; the old stack is needed only by a process that never ran |
| `Process.ExitToProc` | SystemCalls.c:268-290 | an exiting process: its frames go to the free queue and the switch then ends in the same state for the next process, whose table, stack and contexts are untouched, although the window still held the freed stack |
| `Ownership.BootSound` | PMem.c:36-54 | before any program is loaded the boot memory has at most one owner per frame, and the frame at KERNEL_STACK_LIMIT is neither free nor owned |
| `Ownership.KernelStarts` | Kernel.c:119-147 | if the frames suffice KernelStart ends with idle and init laid out on kernel stacks and pages of their own, and exactly the remaining frames free |
| `Ownership.BrkKeeps` | SystemCalls.c:341-370 | a brk keeps single ownership and loses no frame |
| `Ownership.GrowKeeps` | Traps.c:171-202 | stack growth keeps single ownership and loses no frame |
| `Ownership.LoadKeeps` | LoadProgram.c:131-236 | exec's page table work keeps single ownership and loses no frame, also when it fails half way |
| `Ownership.ForkKeeps` | SystemCalls.c:89-142 | a successful fork keeps single ownership and loses no frame |
| `Ownership.ExitKeeps` | SystemCalls.c:268-273 | exit returns every frame of the process and keeps single ownership |
| `Ownership.StepKeepsInv` | SystemCalls.c:89-370 | every step of fork, process creation, exec, brk, stack growth, exit and switching keeps the ownership and layout invariant |
| `Ownership.Run` | SystemCalls.c:89-370 | the invariant holds after every interleaving of those steps |
| `Ownership.OneOwner` | SystemCalls.c:89-370 | in every run a frame is free or belongs to one valid entry of one process's region 1, one kernel stack or the kernel heap, never two |
| `Ownership.StepConserves` | SystemCalls.c:104-113 | a step loses frames exactly when it is a fork whose kernel stack fits and whose pages do not, and then exactly the frames of the child's kernel stack |
| `Ownership.CallsAllowed` | Kernel.c:224-349 | in every reachable state the current process meets what the copy, release and switch routines require: its frames are its own and not free, its pages readable, and no other process's kernel stack shares a frame with its own |
| `Ownership.PagesReady` | VMem.c:34-84 | the asserts of the page loops hold in every reachable state: between the break and the stack every entry is blank, below the break and in the stack every entry is valid, and all lie in the table |
| `Ownership.ForkLoses` | SystemCalls.c:104-113 | a concrete start of the kernel after which a fork by init loses two frames |
| `Pipe.ReadTakesOldest` | Pipe.c:32-46 | a read takes the oldest bytes and keeps the rest, whether or not the pointer is reset |
| `Pipe.WriteAppends` | SystemCalls.c:587-605 | a write appends, whether or not the buffer is compacted and grown, and offset + available stays within the capacity |
| `Pipe.RoomMade` | SystemCalls.c:587-605 | replacing the buffer first and writing then is a write, and the assert that the bytes now fit holds |
| `Pipe.Pipe.PipeSpotsRemaining` | Pipe.c:75-78 | never negative, and exactly the writes of at most that many bytes leave the buffer and the unread bytes where they are |
| `Pipe.Pipe.PipeCopyIntoUserBuffer` | Pipe.c:32-46 | the user gets the first len unread bytes, the pointer moves or is reset, and the buffer's bytes do not change |
| `Pipe.Pipe.PipeCopyIntoPipeBuffer` | Pipe.c:49-55 | the bytes go directly behind the unread ones |
| `Pipe.Pipe.Write` | SystemCalls.c:587-605 | growing, compacting and copying append the bytes to the unread ones, and the assert between growing and copying holds |
| `Placement.DispatchPlaced` | Kernel.c:409-423 | the next process is taken from the head of the ready queue or is idle, and everybody is still in one place |
| `Placement.BlockPlaced` | SystemCalls.c:384-390 | a process that blocks is in exactly one place afterwards |
| `Placement.WakePlaced` | SystemCalls.c:744-747 | a process that leaves a waiting list for the ready queue is in exactly one place |
| `Holding.TakeLocked` | SystemCalls.c:657-662 | taking a free lock keeps owner fields, owned lists and waiting lists in agreement |
| `Holding.WaitLocked` | SystemCalls.c:664-666 | waiting for a lock somebody else holds keeps them in agreement |
| `Holding.HandOverLocked` | SystemCalls.c:690-705 | handing a lock to its oldest waiter keeps them in agreement |
| `Family.ForkRelated` | SystemCalls.c:115-119 | fork keeps parents, live children and zombies consistent |
| `Family.OrphanRelated` | SystemCalls.c:247-259 | emptying the child lists of an exiting process keeps them consistent |
| `Family.BuryRelated` | SystemCalls.c:275-287 | becoming a zombie or vanishing keeps them consistent, and a parent woken from Wait has a zombie |
| `Family.CollectRelated` | SystemCalls.c:304-312 | collecting the oldest zombie keeps them consistent |
| `ExitSteps.ReleaseAllInv` | SystemCalls.c:240-245 | the release loop of exit ends with nothing owned, every lock handed on or free, exactly when all owned locks are still on the kernel's list |
| `ExitSteps.ExitInv` | SystemCalls.c:229-292 | exit keeps the whole invariant, and hangs exactly in that case |
| `ExitSteps.WaitInv` | SystemCalls.c:294-335 | wait keeps the whole invariant in each of its three cases |
| `CallSteps.AcquiredInv` | SystemCalls.c:668-672 | the three asserts behind the switch in KernelAcquire hold |
| `TtySteps.TickSplits` | Traps.c:107-120 | a tick splits the delayed processes into those with ticks left and those whose time is up |
| `TtySteps.DeliverInv` | Traps.c:258-300 | handing out received input keeps the whole invariant |
| `TtySteps.TransmittedInv` | Traps.c:306-354 | the transmit trap never finds its queue empty nor the terminal busy, and keeps the whole invariant |
| `KernelRuns.BootBetween` | Kernel.c:146-154 | the invariant holds when the kernel has started |
| `KernelRuns.ContinueBetween` | Kernel.c:426-459 | whatever call a process was suspended in, resuming it behind the switch keeps the invariant and fails no assert |
| `KernelRuns.StepBetween` | SystemCalls.c:89-838 | every kernel call, trap and resumption keeps the invariant |
| `KernelRuns.RunBetween` | SystemCalls.c:89-838 | so does every interleaving of them |
| `KernelRuns.NeverPanics` | SystemCalls.c:326-693 | in no run does an assert fail: Wait finds a child, an internal terminal write has a terminal, a pipe write has room, an acquired lock is owned, a released one was listed under an id that is not zero, a waiting reader has its buffer, a transmit interrupt finds a writer; and the terminal hardware is never given a second chunk |
| `KernelRuns.ExactlyOnePlace` | Kernel.c:406-423 | in every run each live process other than idle runs, is blocked in Wait, or is on exactly one list, once; idle is on none |
| `KernelRuns.LocksAgree` | SystemCalls.c:640-708 | in every run a lock is held by exactly the process that lists it, once; a lock with waiters is held, and not by a waiter |
| `KernelRuns.FamiliesAgree` | SystemCalls.c:247-334 | in every run live children and zombies are exactly the live and exited processes that name the parent, and a process blocked in Wait has a live child and no zombie |
| `StepEffects.StepLocal` | SystemCalls.c:89-838 | each event other than a clock interrupt and the end of a transmission changes at most its own waiting list, the ready queue and, for releases and exits, lock queues; nobody else's clock, output or resume point |
| `StepEffects.ClockTicked` | Traps.c:107-136 | a clock interrupt takes one tick from every delayed process and leaves all other lists, clocks, outputs and resume points of processes off the CPU alone |
| `StepEffects.TransmittedOnly` | Traps.c:306-354 | the end of a transmission concerns the queue of its terminal, the ready queue and the output of the writers on that queue, and nothing else |
| `Outcomes.ForkMeans` | SystemCalls.c:89-142 | a fork with memory: a new child without locks and children runs, the parent has one more live child and is last in line, and nobody else changes; without memory ERROR and nothing else |
| `Outcomes.InitMeans` | SystemCalls.c:512-532 | LockInit, CvarInit and PipeInit give the caller SUCCESS and the id of a resource that did not exist before, free or empty |
| `Outcomes.ReclaimMeans` | SystemCalls.c:802-838 | reclaiming returns SUCCESS exactly when the resource was on the kernel's list and nobody held it or waited for it; it is off the list in any case and nothing else changes |
| `Outcomes.BroadcastMeans` | SystemCalls.c:752-769 | all waiters are ready, in order, behind everybody who was ready before |
| `Outcomes.PipeReadMeans` | SystemCalls.c:534-563 | the oldest bytes, exactly as many as asked for, or a place at the end of the pipe's list; or a refusal without effect |
| `Outcomes.PipeWriteMeans` | SystemCalls.c:565-615 | the bytes are behind the unread ones and the caller is told their number; other pipes, locks and terminals are not concerned |
| `HandOvers.ReleaseMeans` | SystemCalls.c:675-708 | a release succeeds exactly for the holder of a lock on the kernel's list; the lock then belongs to its longest waiter, who is ready and owns it, or is free; otherwise ERROR and nothing happens |
| `HandOvers.CvarWaitMeans` | SystemCalls.c:771-791 | the same for the lock of a CvarWait, with the caller last in the variable's list |
| `HandOvers.ExitMeans` | SystemCalls.c:229-292 | an exit that does not hang passes every owned lock to its longest waiter or frees it, and the CPU goes down the line of the ready processes, these heirs in the order of the locks, and the waiting parent |
| `Events.StepMeans` | SystemCalls.c:89-838 | every kernel call, trap and resumption, in every state the kernel can be in, does what a description without the step functions says: results, lists, locks, data, control blocks and who runs next |
| `Events.ClockMeans` | Traps.c:107-136 | after a clock interrupt every sleeper has one tick less, exactly those at zero are off the delay list and in line, in its order, behind the ready processes and ahead of the preempted one, and nothing else changed |
| `ReturnRuns.ResumeMeans` | Kernel.c:426-459 | what each suspended call returns when its process runs again |
| `ReturnRuns.ForkReturns` | SystemCalls.c:115-142 | a fork followed over any run: child and parent are each inside the fork until they run again, and then the child has 0 and the parent the child's id |
| `ReturnRuns.DelayReturns` | SystemCalls.c:372-395 | a delay followed over any run: the caller is inside it until it runs again, and then has SUCCESS |
| `ReturnRuns.WriteReturns` | SystemCalls.c:456-491 | a terminal write followed over any run: the caller is inside it until it runs again, and then has the number of its bytes |
| `DelayRuns.SleepLasts` | Traps.c:107-120 | over any run with fewer clock interrupts than ticks left, a delayed process stays delayed and has lost exactly one tick per interrupt |
| `DelayRuns.SleepEnds` | Traps.c:122-136 | at its last tick a process leaves the delay list and is ready ahead of the preempted process |
| `DelayRuns.DelayIsExact` | SystemCalls.c:372-395 | Delay(n), n > 0, whatever else happens: delayed with n - j ticks to go after j < n clock interrupts, ready at exactly the n-th, ahead of the process it preempts |
| `PipeRuns.ReadStreams` | SystemCalls.c:534-563 | a read that returns gives the oldest bytes, exactly as many as asked for; one that cannot takes nothing |
| `PipeRuns.PipeStream` | SystemCalls.c:534-615 | for any interleaving of blocking readers and writers the bytes returned by reads, in order, followed by the unread bytes are the old unread bytes followed by all writes |
| `PipeRuns.NewPipeStream` | SystemCalls.c:512-615 | from the creation of a pipe on, the bytes read and the bytes unread are the bytes written |
| `PipeRuns.FirstSatisfiedIsFirst` | List.c:288-305 | the reader a write selects is the first in the list whose request the buffer satisfies, and there is none exactly when nobody's is |
| `PipeRuns.WriteWakesOne` | SystemCalls.c:605-611 | a write moves that reader and nobody else to the ready queue; a reader that could be served is left asleep exactly when two waiting readers could be |
| `FailingRuns.LeftAsleepRun` | SystemCalls.c:605-611 | a concrete run from boot after which one reader has returned and another sleeps although what it waits for is in the pipe |
| `TtyRuns.StepFlows` | Traps.c:306-354 | one step: unsent bytes and newly written ones are the chunk sent and the new unsent bytes; a chunk has at most TERMINAL_MAX_LINE bytes |
| `TtyRuns.TransmitStream` | SystemCalls.c:456-491 | over any run the chunks passed to TtyTransmit followed by the bytes still to be sent are the writes in queue order, without interleaving |
| `TtyRuns.OneOutstanding` | Traps.c:306-354 | in every run a transmission is outstanding exactly when a writer waits, and it is the first chunk of the first writer |
| `TtyRuns.RoundsIsCeiling` | Traps.c:313-328 | the chunks of a write of n bytes: max(1, ceil(n / TERMINAL_MAX_LINE)) |
| `TtyRuns.InterruptWrites` | Traps.c:306-354 | a transmit interrupt is one less to wait for, and the last one makes the writer ready |
| `TtyRuns.WriteIsExact` | SystemCalls.c:456-491 | over any run a writer waits for exactly the chunks queued before it and its own, and becomes ready with the last |
| `TtyRuns.DeliverDistributes` | Traps.c:266-297 | the input is dealt out to the waiting readers in queue order, each getting all it asked for while there is more; the slices and the leftover are the input |
| `TtyRuns.ReceivedDistributes` | Traps.c:248-304 | one receive interrupt: buffered as a line if nobody waits, otherwise dealt out, with what is left buffered only when every reader has been served |
| `TtyRuns.ReadersOrLines` | SystemCalls.c:416-445 | in every run no reader waits on a terminal that has a buffered line |
| `ReadRuns.DeliverFeeds` | Traps.c:258-300 | a waiting reader is served exactly when the readers before it did not ask for the whole input, and gets the part behind what they asked for, at most as much as it asked for |
| `ReadRuns.InputKept` | SystemCalls.c:447-452 | over any run a reader that was served keeps its bytes until it runs again, and then returns with exactly these bytes and their number |
| `ReadRuns.TtyReadReturns` | SystemCalls.c:397-452 | a blocking terminal read followed over any run: the caller still waits for as many bytes, or a receive interrupt has served it with its part of the input, which it still has or has returned with |
| `TtyRuns.LeftoverIsRest` | SystemCalls.c:420-432 | what a read of len bytes keeps of a buffered line of n >= len bytes is the rest of the line for all lines exactly when len is 0 or n |
| `LockRuns.ExitsEnd` | SystemCalls.c:240-245 | in a run that reclaims only idle resources every exit ends |
| `LockRuns.ExitHangs` | SystemCalls.c:240-245 | in any run the exit of a process, called or because it is killed, hangs exactly when the process owns a lock that was reclaimed |
| `LockRuns.BusyReclaimHangs` | SystemCalls.c:802-813 | reclaiming a lock that is held returns ERROR and yet makes the holder's exit hang |
| `FailingRuns.BusyReclaimRun` | SystemCalls.c:802-813 | a concrete run from boot in which a child reclaims the lock it holds and its exit hangs |
| `QueueRuns.CvarQueues` | SystemCalls.c:730-800 | a signal makes the oldest waiter ready, a broadcast all of them in order, a wait releases the lock and enqueues the caller in one step, and no other event of any kind touches the waiters |
| `QueueRuns.SuccessHolds` | SystemCalls.c:640-672 | a process queued for a lock always returns SUCCESS holding it; Acquire and the end of a CvarWait return SUCCESS only to the holder, ERROR only for a lock that is off the kernel's list, and otherwise queue the caller behind a lock somebody else holds |
| `QueueRuns.LockQueues` | SystemCalls.c:640-708 | over any event waiters join a lock's list at the back and leave it only from the front, becoming the holder |
| `CvarRuns.CvarWaitReturns` | SystemCalls.c:771-800 | a CvarWait followed over any run: the lock is given up and the caller queued in one step, and later the caller is still inside the call or has returned from it, with SUCCESS holding the lock or with ERROR because the lock was reclaimed |
| `KinSteps.StepKin` | SystemCalls.c:89-838 | every event but forks, exits and waits that find a zombie leaves all processes, parents, children and exit statuses alone |
| `ZombieRuns.ZombieQueues` | SystemCalls.c:275-334 | over any event a process's zombies gain the exiting child at the back with its status, lose the first to the process's own wait, which returns its status, or stay as they are with their statuses |
| `ZombieRuns.ExitWakes` | SystemCalls.c:281-284 | the exit of a child makes a parent blocked in Wait ready, last in line behind everybody who was ready |
| `ZombieRuns.ZombieStream` | SystemCalls.c:229-335 | over any run the children whose statuses the waits returned, in order, followed by the zombies at the end are the zombies at the start followed by the children that exited, each with the status it exited with |
| `ZombieRuns.CollectedOnce` | SystemCalls.c:294-335 | so what a process collects is a first part of the exits of its children, in their order, and no child is collected twice |
| `ZombieRuns.CollectsOldest` | SystemCalls.c:294-335 | Wait returns SUCCESS only with the status of the oldest zombie, which is then gone |
| `SwitchRuns.FirstRuns` | Kernel.c:477-486 | in any run a process gets the CPU for the first time when it is forked, or is init and idle gives the CPU up, so the kernel stack that is copied for it belongs to a live process |
| `SwitchRuns.ExitGoesToRunner` | Kernel.c:426-459 | in any run the process an exit switches to has run before, so it never starts on a copy of the freed stack |
| `SysCalls.Kernel.constructor` | Kernel.c:146-154 | the kernel as KernelStart leaves it |
| `SysCalls.Kernel.KernelFork` | SystemCalls.c:89-142 | the child is new, owns nothing, and runs; the parent has one more live child and is last in line; both are inside the fork; without memory the caller has ERROR and nothing else happens; nobody else changes and the invariant holds |
| `SysCalls.Kernel.KernelExit` | SystemCalls.c:229-292 | refines the exit step in every case, including the one whose release loop never ends; otherwise every lock the process owned goes to its longest waiter or is free, no other lock changes, and the CPU goes down the line of the ready processes, these new owners, and the parent if it was in Wait |
| `SysCalls.Kernel.ReleaseOwned` | SystemCalls.c:240-245 | the loop releases every owned lock, oldest first; a release that fails changes nothing, so the loop then never ends |
| `SysCalls.Kernel.OrphanLive` | SystemCalls.c:247-253 | the loop clears the parent of every live child |
| `SysCalls.Kernel.FreeZombies` | SystemCalls.c:255-259 | the loop frees every zombie |
| `SysCalls.Kernel.KernelWait` | SystemCalls.c:294-322 | with a zombie SUCCESS and the status of the first to exit, which alone disappears; without children ERROR; otherwise the caller is on no list and the next in line runs; nobody else changes and the invariant holds |
| `SysCalls.Kernel.CollectChild` | SystemCalls.c:304-312 | refines the collection of the oldest zombie |
| `SysCalls.Kernel.KernelDelay` | SystemCalls.c:372-390 | a negative delay is refused and a zero one returns at once; otherwise the caller is last on the delay list with that many ticks and the next in line runs; nobody else changes and the invariant holds |
| `SysCalls.Kernel.DecrementTicksRemaining` | Traps.c:107-120 | one more delayed process has lost its tick and, if its time is up, is ready |
| `SysCalls.Kernel.MapDelayed` | Traps.c:124-125 | the traversal of the live clock list gives every delayed process exactly one tick although the callback unlinks some of them under way |
| `SysCalls.Kernel.TrapClock` | Traps.c:122-136 | refines the clock step |
| `SysCalls.Kernel.KernelAcquire` | SystemCalls.c:640-666 | ERROR for an unknown lock; SUCCESS and the caller holds the lock if it was free or its own; otherwise the caller is last in its queue, the lock stays with its holder and the next in line runs; other locks and processes do not change and the invariant holds |
| `SysCalls.Kernel.KernelRelease` | SystemCalls.c:675-708 | frees the lock or hands it to its oldest waiter, its assert included, or returns ERROR and changes nothing |
| `SysCalls.Kernel.KernelReclaim` | SystemCalls.c:802-838 | unlinks first and then decides between SUCCESS and ERROR |
| `SysCalls.Kernel.KernelCvarSignal` | SystemCalls.c:730-750 | the longest waiter moves to the back of the ready queue and nobody else moves; the caller goes on with SUCCESS, or with ERROR for an unknown condition variable; the invariant holds |
| `SysCalls.Kernel.KernelCvarBroadcast` | SystemCalls.c:752-769 | the drain loop makes all waiters ready, in order, behind everybody who was ready, and the caller goes on with SUCCESS, or with ERROR for an unknown condition variable; nobody else changes and the invariant holds |
| `SysCalls.Kernel.KernelCvarWait` | SystemCalls.c:771-791 | the caller waits last for the condition variable without the lock, which goes to its longest waiter or is free, and the next in line runs; for an unknown variable or a lock it does not hold it has ERROR and nothing happens; the invariant holds |
| `SysCalls.Kernel.KernelPipeRead` | SystemCalls.c:534-563 | with enough unread bytes the caller has the oldest ones and the others stay; otherwise it waits last in the pipe's list for that many bytes and the pipe is as it was; bad arguments are refused and nothing happens; nobody else changes and the invariant holds |
| `SysCalls.Kernel.FindFirstSatisfied` | List.c:288-305 | the scan finds the first reader that the available bytes satisfy |
| `SysCalls.Kernel.FillBuffer` | SystemCalls.c:587-605 | growing and copying leave the buffer the specification says |
| `SysCalls.Kernel.KernelPipeWrite` | SystemCalls.c:565-615 | refines the write step |
| `SysCalls.Kernel.KernelTtyRead` | SystemCalls.c:397-440 | the caller gets a first part of the oldest buffered line, as much as it asked for if there is so much, and the leftover the code keeps goes back in front; without a line it waits last in the terminal's queue with an allocated buffer of that length; nobody else changes and the invariant holds |
| `SysCalls.Kernel.KernelTtyWriteInternal` | SystemCalls.c:456-487 | the caller waits last in the terminal's queue with all its bytes to send, the terminal is given the first chunk exactly when it was idle, the next in line runs; nobody else changes and the invariant holds |
| `SysCalls.Kernel.KernelTtyWrite` | SystemCalls.c:494-510 | the same for a terminal in range; otherwise ERROR and nothing else happens |
| `SysCalls.Kernel.ServeReader` | Traps.c:266-286 | one turn of the loop serves the oldest waiting reader |
| `SysCalls.Kernel.TrapTtyReceive` | Traps.c:248-304 | refines the receive step |
| `SysCalls.Kernel.TrapTtyTransmit` | Traps.c:306-354 | refines the transmit step |
| `SysCalls.Kernel.Resume` | Kernel.c:447-458 | what a process gets when it runs again: 0 in the child and the child's id in the parent of a fork, SUCCESS after a delay or with the lock it waited for, the oldest zombie's status, the bytes of a pipe or another wait, the received input and its length, or the length of a write; a killed process goes; the asserts on the way hold and so does the invariant |
| `List.List.AddToHashTable` | List.c:11-20 | the new node becomes the first of its bucket and the index covers it |
| `List.List.FindFromHashTable` | List.c:25-38 | finds the indexed node with the id, or null exactly when there is none |
| `List.List.RemoveFromHashTable` | List.c:43-72 | unlinks exactly the node with the id from its chain, or returns null and leaves the index as it was |
| `List.List.constructor` | List.c:198-207 | an empty list with or without an index |
| `List.List.Empty` | List.c:221-224 | true exactly when the sequence is empty |
| `List.List.Peak` | List.c:397-399 | the first item's data, or nothing |
| `List.List.Push` | List.c:227-245 | the item becomes the first; links, sentinel and index stay consistent |
| `List.List.Dequeue` | List.c:249-265 | the first item leaves; taking it out of the index again after it was already taken out changes nothing when ids are unique |
| `List.List.FindNodeById` | List.c:269-284 | the scan finds the first node with the id |
| `List.List.OnlyOne` | List.c:309-322 | with unique ids the node the index finds is the one a scan finds |
| `List.List.FindById` | List.c:309-322 | the result is that of a linear scan, through the index or not |
| `List.List.RemoveInner` | List.c:340-345 | a node behind the head leaves the list and the links close over it |
| `List.List.RemoveById` | List.c:327-349 | removes the first item with the id and returns its data, through the index or not; the unlinked node keeps its next pointer |
| `List.List.FindFirstLessThanIdAndRemove` | List.c:288-305 | removes exactly the node whose data it returns, also with repeated ids on an unhashed list |
| `List.List.Append` | List.c:357-378 | the item becomes the last; links, sentinel and index stay consistent |
| `List.List.MapRemoving` | List.c:382-394 | with a callback that removes some of the items, the traversal visits every item exactly once in order and the rest remain |
| `LoadArgs.CountBytes` | LoadProgram.c:92-97 | the bytes of the argument strings with their NULs |
| `LoadArgs.BlockLayout` | LoadProgram.c:110-157 | the stack pointer is a multiple of eight inside the stack's pages, the pointers end before the strings begin, and its page is the lowest stack page, above the heap |
| `LoadArgs.StringsLayout` | LoadProgram.c:316-321 | the strings do not overlap and the last ends at VMEM_1_LIMIT |
| `LoadArgs.BuildArguments` | LoadProgram.c:308-324 | the writes produce argc, the argv pointers, the NULLs and the strings, and change nothing below the stack pointer |
| `LoadArgs.StoreArgument` | LoadProgram.c:316-321 | one turn of the loop adds a pointer and its string to the block and disturbs none of the earlier ones |
| `LoadArgs.NullsBehind` | LoadProgram.c:323-324 | NULL pointers end argv and the empty environment |
| `LoadArgs.ParseFinds` | LoadProgram.c:308-324 | following argc and argv from the stack pointer gives back the original arguments |

## Left out

- Copy.CopyPageData: copies words, not bytes; a page is 2048 words of 32 bits, and byte order inside a word is not modelled.
- Process.KernelBrk: says of the TLB only that it gains no entry, because a shrinking break does not flush it and stale entries survive until the next switch.
- Process.TrapMemory: what a fault that cannot be served does (print, exit) is the EKill event of the step machine; the missing-permission case, where the code calls exit of the C library, and the entry read behind the table for the address VMEM_1_LIMIT end in a result here and have no further effect.
- Process.ForkMemory: on failure the frames of the child's kernel stack are not returned; this is what the code does, and the contract states it.
- Process.LoadPages: for programs whose text starts at page 0 of region 1 with the data right behind it; reading the ELF file, the file contents and the clearing of the uninitialised data are not modelled, nor is what happens to a process whose exec failed after region 1 was freed beyond its being fit only for exit.
- Process.SwitchToProc: takes the trap frame and the kernel context as parameters; KernelContextSwitch itself and the return value checks around it are not modelled.
- Ownership.Run: memory the kernel heap allocates during other operations and SetKernelBrk are not steps; page contents change only through the kernel's own copies, user programs writing their memory are not modelled.
- Process.ExitToProc: between the release and the switch the kernel still runs on the freed stack, and the free list writes the first two words of its frames; what that does to the running kernel is not modelled.
- SysCalls.Kernel.KernelRelease: the result is returned to the kernel caller; the return to user mode is the Release step.
- TtyRuns.LeftoverIsRest: the branch of KernelTtyRead that serves a buffered line also reads past the end of a line shorter than the request; the model gives the reader the line only.
- KernelRuns.NeverPanics: the asserts of the page loops are those of Ownership.PagesReady; asserts that an argument is not a null pointer are void in the model.
- List.List.MapRemoving: relies on unlinked nodes keeping their fields; the code frees them first, so it relies on the allocator not reusing them at once.
- List.List.Dequeue: the caller of a list with an index keeps ids unique, as the header of the list asks; with repeated ids the index and the list could part.
- LoadArgs.BuildArguments: for the build with LINUX defined (no initial stack frame, 0x20 pointers of zeroed space); failing to allocate the buffer that saves the arguments is not modelled.
- Control blocks in the scheduler part are records in a map and lists are sequences in a map, so aliasing between lists that share a control block is not modelled there; the list structure itself is in List.
- Validation of user pointers and strings, which rejects a call before it does anything.
- KernelGetPid, KernelExec's copying of its arguments, trap dispatch, tracing and the test programs.
- Lifetime of the kernel heap: objects are never reused, and exiting processes go on using freed tables until the switch.
- Overflow of process and resource ids: they are unbounded and strictly increasing.
- What idle does: it makes no kernel calls, as idle.c shows, and only interrupts arrive while it runs.
