/** Process control blocks: the fields that concern memory and context switches. */
module PCB {
  import opened Hardware

  datatype UserContext = UserContext(pc: nat, sp: nat, r0: int)

  /** What KernelContextSwitch saves; opaque to the kernel. */
  datatype KernelContext = KernelContext(image: nat)

  class Pcb {
    const pid: nat
    const region1: array<Pte>
    const kstack: array<Pte>
    var lowestUserStackPage: int
    var userBrkPage: int
    var kernelContextInitialized: bool
    var userContext: UserContext
    var kernelContext: KernelContext

    constructor (pid: nat, pages: nat, stackPages: nat, user: UserContext)
      ensures this.pid == pid && userContext == user && !kernelContextInitialized
      ensures region1.Length == pages && kstack.Length == stackPages
      ensures fresh(region1) && fresh(kstack) && region1 != kstack
      ensures forall i | 0 <= i < pages :: region1[i] == BLANK_PTE
      ensures forall i | 0 <= i < stackPages :: kstack[i] == BLANK_PTE
    {
      this.pid := pid;
      userContext := user;
      kernelContextInitialized := false;
      kernelContext := KernelContext(0);
      region1 := new Pte[pages](_ => BLANK_PTE);
      kstack := new Pte[stackPages](_ => BLANK_PTE);
      lowestUserStackPage, userBrkPage := 0, 0;
    }
  }
}
