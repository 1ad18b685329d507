/**
  Copy-on-write address spaces and the reference-counted page allocator, as a
  transition system.  Every step is one region of kernel code delimited by
  lock operations (or one user-mode access), so a run of this system is an
  arbitrary interleaving of faults, forks, frees, copyouts and size changes by
  any number of processes.
 */
module CowModel {
  import opened Optional

  const PGSIZE: nat := 4096

  type Page = nat          // physical page number
  type Asid = nat          // a process and its user page table
  type Data = seq<int>     // the bytes of one page

  datatype Slot = Slot(a: Asid, v: nat)   // virtual page v of address space a

  datatype Perm = Perm(r: bool, w: bool, x: bool, u: bool)

  // A valid leaf PTE.  PTE_V is presence in the map.
  datatype Pte = Pte(pa: Page, perm: Perm, cow: bool)

  // What one iteration of copyout stores into its page.
  datatype Write = Write(off: nat, bytes: Data)

  // What uvmunmap's caller does next: drop the page table, or set the size to n pages, size bytes.
  datatype Fin = Delete | Resize(n: nat, size: nat)
  datatype Stage = Start | Protected | Mapped

  // Where a process is inside the kernel.
  datatype Op =
    | Idle                                                      // user mode, or no page operation under way
    | Fork(child: Asid, i: nat, st: Stage)                      // uvmcopy at page i
    | CowSole(v: nat)                                           // fault saw a count of one
    | CowNeed(v: nat, out: Option<Write>)                       // about to kalloc the private copy
    | CowHave(v: nat, fresh_: Page, out: Option<Write>)         // before memmove
    | CowCopied(v: nat, fresh_: Page, out: Option<Write>)       // dropping the shared page
    | CopyBytes(v: nat, f: Write, rw: bool)                     // copyout's own memmove; rw: the PTE had W or COW
    | Grow(a: nat, target: nat, perm: Perm)                     // uvmalloc at page a, up to target bytes
    | GrowHave(a: nat, target: nat, perm: Perm, fresh_: Page)
    | GrowDrop(a: nat, fresh_: Page)                            // mappages failed
    | Unmap(sp: Asid, j: nat, hi: nat, fin: Fin)                // uvmunmap at page j of sp

  datatype Dest = ToKernel | ToOp

  // Where a process is inside kalloc or kfree.
  datatype Sub =
    | NoSub
    | Popped(pg: Page, dest: Dest)       // off the free list, count not yet set
    | Checked(pg: Page, kernel: bool)    // kfree's first test passed
    | Dying(pg: Page, kernel: bool)      // count is zero, not yet on the free list
    | Gone(pg: Page)                     // kfree has returned; the PTE still points to the page

  datatype Thread = Thread(op: Op, sub: Sub)

  datatype State = State(
    free: seq<Page>,            // kmem.freelist
    ref: map<Page, int>,        // reference_counter
    mem: map<Page, Data>,
    pt: map<Slot, Pte>,         // all user page tables
    bytes: map<Asid, nat>,      // p->sz
    sz: map<Asid, nat>,         // ... rounded up to pages
    threads: map<Asid, Thread>, // the live processes
    zombies: set<Asid>,
    kern: set<Page>,            // page-table pages, trapframes, pipes, stacks
    stuck: bool)                // a panic, or kfree returned with ref_page_lock held

  datatype Event =
    | Store(v: nat, off: nat, b: int)
    | Fault(v: nat, off: nat)
    | TakeSole
    | CopyoutStart(v: nat, f: Write)
    | CopyoutBytes
    | Pop(dest: Dest)
    | PopFail
    | SetRef
    | CopyPage
    | KernFree(pg: Page)
    | FreeCheck
    | FreeDec
    | FreePush
    | FreeDone
    | UnmapDone
    | ForkStart(child: Asid)
    | ForkProtect
    | ForkMap
    | ForkInc
    | ForkDone
    | GrowStart(target: nat, perm: Perm)
    | GrowMap
    | GrowDone
    | ShrinkStart(n: nat)
    | ClearUser(v: nat)
    | Exit
    | Reap(z: Asid)

  // PGROUNDUP(n) / PGSIZE
  function Pages(n: nat): nat
  {
    (n + PGSIZE - 1) / PGSIZE
  }

  function Fill(b: int): (d: Data)
    ensures |d| == PGSIZE
  {
    seq(PGSIZE, _ => b)
  }

  function Splice(d: Data, f: Write): Data
    requires f.off + |f.bytes| <= |d|
  {
    d[..f.off] + f.bytes + d[f.off + |f.bytes|..]
  }

  function At(s: State, t: Asid, op: Op, sub: Sub): State
  {
    s.(threads := s.threads[t := Thread(op, sub)])
  }

  // The kernel may call kalloc for its own page (a table, a trapframe, a pipe) here.
  predicate KernelMayAlloc(op: Op)
  {
    op.Idle? || (op.Fork? && op.st.Protected?) || op.GrowHave?
  }

  predicate KernelMayFree(op: Op)
  {
    op.Idle? || op.Unmap?
  }

  predicate OpWantsPage(op: Op)
  {
    op.CowNeed? || (op.Grow? && op.a < Pages(op.target))
  }

  predicate CallsFree(op: Op)
  {
    op.CowCopied? || (op.Unmap? && op.j < op.hi) || op.GrowDrop?
  }

  predicate Leaf(p: Pte)
  {
    p.perm.r || p.perm.w || p.perm.x || p.perm.u || p.cow
  }

  // The page this operation is about to pass to kfree; None where uvmunmap panics.
  function FreeTarget(s: State, t: Asid, op: Op): Option<Page>
  {
    match op
    case CowCopied(v, _, _) =>
      if Slot(t, v) in s.pt && Leaf(s.pt[Slot(t, v)]) then Some(s.pt[Slot(t, v)].pa) else None
    case Unmap(sp, j, hi, _) =>
      if j < hi && Slot(sp, j) in s.pt && Leaf(s.pt[Slot(sp, j)]) then Some(s.pt[Slot(sp, j)].pa) else None
    case GrowDrop(_, new_) => Some(new_)
    case _ => None
  }

  // The process t is live and the kernel has not stopped.
  predicate Active(s: State, t: Asid)
  {
    !s.stuck && t in s.threads && t in s.sz
  }

  // ... and is not inside kalloc or kfree.
  predicate Calm(s: State, t: Asid)
  {
    Active(s, t) && s.threads[t].sub.NoSub?
  }

  predicate Ready(s: State, t: Asid, op: Op)
  {
    Calm(s, t) && s.threads[t].op == op
  }

  // The process is gone from user space; its parent frees the memory later.
  function Die(s: State, t: Asid): State
  {
    s.(threads := s.threads - {t}, zombies := s.zombies + {t})
  }

  // uvmunmap clears the PTE; after that, in the fault handler and in copyout, mappages installs the private page.
  function AfterPt(s: State, t: Asid, op: Op): map<Slot, Pte>
  {
    match op
    case CowCopied(v, new_, _) =>
      if Slot(t, v) in s.pt then s.pt[Slot(t, v) := Pte(new_, s.pt[Slot(t, v)].perm.(w := true), false)] else s.pt
    case Unmap(sp, j, _, _) => s.pt - {Slot(sp, j)}
    case _ => s.pt
  }

  function AfterOp(s: State, t: Asid, op: Op): Op
  {
    match op
    case CowCopied(v, _, out) => if out.None? then Idle else CopyBytes(v, out.value, true)
    case Unmap(sp, j, hi, fin) => Unmap(sp, j + 1, hi, fin)
    case GrowDrop(a, _) =>
      // uvmdealloc, back to the size that is still p->sz
      var n := if t in s.sz then s.sz[t] else 0;
      Unmap(t, n, a, Resize(n, if t in s.bytes then s.bytes[t] else 0))
    case _ => op
  }

  // What follows kfree in the operation that called it, after the last lock is released.
  function AfterFree(s: State, t: Asid, op: Op): State
  {
    At(s.(pt := AfterPt(s, t, op)), t, AfterOp(s, t, op), NoSub)
  }

  // ----- user-mode access and the fault handler (trap.c) -----

  // The hardware looks at the PTE only.
  predicate CanStore(s: State, t: Asid, v: nat, off: nat)
  {
    && Ready(s, t, Idle) && Slot(t, v) in s.pt && off < PGSIZE
    && s.pt[Slot(t, v)].perm.u && s.pt[Slot(t, v)].perm.w
    && s.pt[Slot(t, v)].pa in s.mem && off < |s.mem[s.pt[Slot(t, v)].pa]|
  }

  function DoStore(s: State, t: Asid, v: nat, off: nat, b: int): State
    requires CanStore(s, t, v, off)
  {
    var pa := s.pt[Slot(t, v)].pa;
    s.(mem := s.mem[pa := s.mem[pa][off := b]])
  }

  // iscowpage at the byte address of the fault: below p->sz, and marked COW.
  predicate CanFault(s: State, t: Asid, v: nat, off: nat)
  {
    && Ready(s, t, Idle) && t in s.bytes && off < PGSIZE && v * PGSIZE + off < s.bytes[t]
    && Slot(t, v) in s.pt && s.pt[Slot(t, v)].cow && s.pt[Slot(t, v)].pa in s.ref
  }

  // The count is read under ref_page_lock.
  function DoFault(s: State, t: Asid, v: nat, off: nat): State
    requires CanFault(s, t, v, off)
  {
    var n := s.ref[s.pt[Slot(t, v)].pa];
    if n > 1 then At(s, t, CowNeed(v, None), NoSub)
    else if n == 1 then At(s, t, CowSole(v), NoSub)
    else Die(s, t)
  }

  predicate CanTakeSole(s: State, t: Asid)
  {
    Calm(s, t) && s.threads[t].op.CowSole? && Slot(t, s.threads[t].op.v) in s.pt
  }

  function DoTakeSole(s: State, t: Asid): State
    requires CanTakeSole(s, t)
  {
    var sl := Slot(t, s.threads[t].op.v);
    var p := s.pt[sl];
    At(s.(pt := s.pt[sl := p.(perm := p.perm.(w := true), cow := false)]), t, Idle, NoSub)
  }

  predicate CanCopyPage(s: State, t: Asid)
  {
    && Calm(s, t) && s.threads[t].op.CowHave? && Slot(t, s.threads[t].op.v) in s.pt
    && s.pt[Slot(t, s.threads[t].op.v)].pa in s.mem
  }

  function DoCopyPage(s: State, t: Asid): State
    requires CanCopyPage(s, t)
  {
    var op := s.threads[t].op;
    At(s.(mem := s.mem[op.fresh_ := s.mem[s.pt[Slot(t, op.v)].pa]]), t, CowCopied(op.v, op.fresh_, op.out), NoSub)
  }

  // ----- copyout (vm.c), one page -----

  // Only PTE_V and PTE_U are tested.
  predicate CanCopyoutStart(s: State, t: Asid, v: nat, f: Write)
  {
    && Ready(s, t, Idle) && Slot(t, v) in s.pt && f.off + |f.bytes| <= PGSIZE
    && s.pt[Slot(t, v)].perm.u && s.pt[Slot(t, v)].pa in s.ref
  }

  function DoCopyoutStart(s: State, t: Asid, v: nat, f: Write): State
    requires CanCopyoutStart(s, t, v, f)
  {
    var p := s.pt[Slot(t, v)];
    if !p.cow then At(s, t, CopyBytes(v, f, p.perm.w), NoSub)
    else if s.ref[p.pa] <= 0 then s
    else At(s, t, CowNeed(v, Some(f)), NoSub)
  }

  predicate CanCopyoutBytes(s: State, t: Asid)
  {
    && Calm(s, t) && s.threads[t].op.CopyBytes? && Slot(t, s.threads[t].op.v) in s.pt
    && s.pt[Slot(t, s.threads[t].op.v)].pa in s.mem
    && s.threads[t].op.f.off + |s.threads[t].op.f.bytes| <= |s.mem[s.pt[Slot(t, s.threads[t].op.v)].pa]|
  }

  function DoCopyoutBytes(s: State, t: Asid): State
    requires CanCopyoutBytes(s, t)
  {
    var op := s.threads[t].op;
    var pa := s.pt[Slot(t, op.v)].pa;
    At(s.(mem := s.mem[pa := Splice(s.mem[pa], op.f)]), t, Idle, NoSub)
  }

  // ----- kalloc (kalloc.c) -----

  predicate CanPop(s: State, t: Asid, dest: Dest)
  {
    && Calm(s, t) && s.free != []
    && (if dest.ToKernel? then KernelMayAlloc(s.threads[t].op) else OpWantsPage(s.threads[t].op))
  }

  function DoPop(s: State, t: Asid, dest: Dest): State
    requires CanPop(s, t, dest)
  {
    At(s.(free := s.free[1..]), t, s.threads[t].op, Popped(s.free[0], dest))
  }

  predicate CanPopFail(s: State, t: Asid)
  {
    && Calm(s, t) && s.free == []
    && var op := s.threads[t].op;
       OpWantsPage(op) || (op.Fork? && op.st.Protected?) || op.GrowHave?
  }

  // kalloc returned 0: the faulting process is killed, the others unwind.
  function DoPopFail(s: State, t: Asid): State
    requires CanPopFail(s, t)
  {
    match s.threads[t].op
    case CowNeed(_, None) => Die(s, t)
    case CowNeed(_, Some(_)) => At(s, t, Idle, NoSub)
    case Grow(a, _, _) =>
      var size := if t in s.bytes then s.bytes[t] else 0;
      At(s, t, Unmap(t, s.sz[t], a, Resize(s.sz[t], size)), NoSub)
    case GrowHave(a, _, _, p) => At(s, t, GrowDrop(a, p), NoSub)
    case Fork(c, i, _) => At(s, t, Unmap(c, 0, i, Delete), NoSub)
    case _ => s
  }

  predicate CanSetRef(s: State, t: Asid)
  {
    && Active(s, t) && s.threads[t].sub.Popped?
    && (s.threads[t].sub.dest.ToOp? ==> OpWantsPage(s.threads[t].op))
  }

  function GotPage(op: Op, pg: Page): Op
    requires OpWantsPage(op)
  {
    match op
    case CowNeed(v, out) => CowHave(v, pg, out)
    case Grow(a, target, perm) => GrowHave(a, target, perm, pg)
  }

  function DoSetRef(s: State, t: Asid): State
    requires CanSetRef(s, t)
  {
    var op, pg := s.threads[t].op, s.threads[t].sub.pg;
    var s1 := s.(mem := s.mem[pg := Fill(5)], ref := s.ref[pg := 1]);
    if s.threads[t].sub.dest.ToKernel? then At(s1.(kern := s1.kern + {pg}), t, op, NoSub)
    else At(s1, t, GotPage(op, pg), NoSub)
  }

  // ----- kfree (kalloc.c) and what follows it in uvmunmap and its callers -----

  predicate CanKernFree(s: State, t: Asid, pg: Page)
  {
    Calm(s, t) && KernelMayFree(s.threads[t].op) && pg in s.kern && pg in s.ref
  }

  function DoKernFree(s: State, t: Asid, pg: Page): State
    requires CanKernFree(s, t, pg)
  {
    if s.ref[pg] <= 0 then s.(stuck := true)
    else At(s.(kern := s.kern - {pg}), t, s.threads[t].op, Checked(pg, true))
  }

  predicate CanFreeCheck(s: State, t: Asid)
  {
    && Calm(s, t) && CallsFree(s.threads[t].op)
    && var pg := FreeTarget(s, t, s.threads[t].op); pg.Some? ==> pg.value in s.ref
  }

  // uvmunmap panics on a missing mapping and on a non-leaf PTE, kfree on a free page.
  function DoFreeCheck(s: State, t: Asid): State
    requires CanFreeCheck(s, t)
  {
    var pg := FreeTarget(s, t, s.threads[t].op);
    if pg.None? || s.ref[pg.value] <= 0 then s.(stuck := true)
    else At(s, t, s.threads[t].op, Checked(pg.value, false))
  }

  predicate CanFreeDec(s: State, t: Asid)
  {
    Active(s, t) && s.threads[t].sub.Checked? && s.threads[t].sub.pg in s.ref
  }

  // With a count of zero or less kfree would return holding ref_page_lock.
  function DoFreeDec(s: State, t: Asid): State
    requires CanFreeDec(s, t)
  {
    var op, sub := s.threads[t].op, s.threads[t].sub;
    var n := s.ref[sub.pg];
    if n == 1 then At(s.(ref := s.ref[sub.pg := 0]), t, op, Dying(sub.pg, sub.kernel))
    else if n > 1 then
      At(s.(ref := s.ref[sub.pg := n - 1]), t, op, if sub.kernel then NoSub else Gone(sub.pg))
    else s.(stuck := true)
  }

  predicate CanFreePush(s: State, t: Asid)
  {
    Active(s, t) && s.threads[t].sub.Dying? && s.threads[t].sub.pg in s.mem
  }

  function DoFreePush(s: State, t: Asid): State
    requires CanFreePush(s, t)
  {
    var op, sub := s.threads[t].op, s.threads[t].sub;
    At(s.(mem := s.mem[sub.pg := Fill(1)], free := [sub.pg] + s.free), t, op,
       if sub.kernel then NoSub else Gone(sub.pg))
  }

  predicate CanFreeDone(s: State, t: Asid)
  {
    Active(s, t) && s.threads[t].sub.Gone?
  }

  // No lock is held: between kfree and here anyone may take the page.
  function DoFreeDone(s: State, t: Asid): State
    requires CanFreeDone(s, t)
  {
    AfterFree(s, t, s.threads[t].op)
  }

  predicate CanUnmapDone(s: State, t: Asid)
  {
    Calm(s, t) && s.threads[t].op.Unmap? && s.threads[t].op.j == s.threads[t].op.hi
  }

  function DoUnmapDone(s: State, t: Asid): State
    requires CanUnmapDone(s, t)
  {
    match s.threads[t].op.fin
    case Delete =>
      var sp := s.threads[t].op.sp;
      At(s.(sz := s.sz - {sp}, bytes := s.bytes - {sp}), t, Idle, NoSub)
    case Resize(n, size) => At(s.(sz := s.sz[t := n], bytes := s.bytes[t := size]), t, Idle, NoSub)
  }

  // ----- uvmcopy (vm.c) and fork (proc.c) -----

  predicate InFork(s: State, t: Asid, st: Stage)
  {
    Calm(s, t) && s.threads[t].op.Fork? && s.threads[t].op.st == st
  }

  predicate CanForkStart(s: State, t: Asid, child: Asid)
  {
    Ready(s, t, Idle) && child !in s.sz
  }

  function DoForkStart(s: State, t: Asid, child: Asid): State
    requires CanForkStart(s, t, child)
  {
    At(s.(sz := s.sz[child := 0], bytes := s.bytes[child := 0]), t, Fork(child, 0, Start), NoSub)
  }

  predicate CanForkProtect(s: State, t: Asid)
  {
    InFork(s, t, Start) && s.threads[t].op.i < s.sz[t]
  }

  function Shared(p: Pte): Pte
  {
    if p.perm.w then p.(perm := p.perm.(w := false), cow := true) else p
  }

  function DoForkProtect(s: State, t: Asid): State
    requires CanForkProtect(s, t)
  {
    var op := s.threads[t].op;
    if Slot(t, op.i) !in s.pt then s.(stuck := true)
    else At(s.(pt := s.pt[Slot(t, op.i) := Shared(s.pt[Slot(t, op.i)])]), t, Fork(op.child, op.i, Protected), NoSub)
  }

  predicate CanForkMap(s: State, t: Asid)
  {
    InFork(s, t, Protected) && Slot(t, s.threads[t].op.i) in s.pt
  }

  // mappages panics on a remap.
  function DoForkMap(s: State, t: Asid): State
    requires CanForkMap(s, t)
  {
    var op := s.threads[t].op;
    if Slot(op.child, op.i) in s.pt then s.(stuck := true)
    else At(s.(pt := s.pt[Slot(op.child, op.i) := s.pt[Slot(t, op.i)]]), t, Fork(op.child, op.i, Mapped), NoSub)
  }

  predicate CanForkInc(s: State, t: Asid)
  {
    InFork(s, t, Mapped) && Slot(t, s.threads[t].op.i) in s.pt && s.pt[Slot(t, s.threads[t].op.i)].pa in s.ref
  }

  function DoForkInc(s: State, t: Asid): State
    requires CanForkInc(s, t)
  {
    var op := s.threads[t].op;
    var pa := s.pt[Slot(t, op.i)].pa;
    At(s.(ref := s.ref[pa := s.ref[pa] + 1]), t, Fork(op.child, op.i + 1, Start), NoSub)
  }

  predicate CanForkDone(s: State, t: Asid)
  {
    InFork(s, t, Start) && s.threads[t].op.i == s.sz[t] && s.threads[t].op.child in s.sz && t in s.bytes
  }

  function DoForkDone(s: State, t: Asid): State
    requires CanForkDone(s, t)
  {
    var c := s.threads[t].op.child;
    At(At(s.(sz := s.sz[c := s.sz[t]], bytes := s.bytes[c := s.bytes[t]]), t, Idle, NoSub), c, Idle, NoSub)
  }

  // ----- growproc: uvmalloc and uvmdealloc; uvmclear; exit and wait -----

  // growproc to target bytes.
  predicate CanGrowStart(s: State, t: Asid, target: nat, perm: Perm)
  {
    Ready(s, t, Idle) && t in s.bytes && s.bytes[t] <= target && perm.r && perm.u
  }

  function DoGrowStart(s: State, t: Asid, target: nat, perm: Perm): State
    requires CanGrowStart(s, t, target, perm)
  {
    At(s, t, Grow(s.sz[t], target, perm), NoSub)
  }

  predicate CanGrowMap(s: State, t: Asid)
  {
    Calm(s, t) && s.threads[t].op.GrowHave?
  }

  function DoGrowMap(s: State, t: Asid): State
    requires CanGrowMap(s, t)
  {
    var op := s.threads[t].op;
    if Slot(t, op.a) in s.pt then s.(stuck := true)
    else At(s.(pt := s.pt[Slot(t, op.a) := Pte(op.fresh_, op.perm, false)],
               mem := s.mem[op.fresh_ := Fill(0)]), t, Grow(op.a + 1, op.target, op.perm), NoSub)
  }

  predicate CanGrowDone(s: State, t: Asid)
  {
    Calm(s, t) && s.threads[t].op.Grow? && s.threads[t].op.a == Pages(s.threads[t].op.target)
  }

  function DoGrowDone(s: State, t: Asid): State
    requires CanGrowDone(s, t)
  {
    var target := s.threads[t].op.target;
    At(s.(sz := s.sz[t := Pages(target)], bytes := s.bytes[t := target]), t, Idle, NoSub)
  }

  // growproc down to n bytes: the page holding byte n - 1 stays.
  predicate CanShrinkStart(s: State, t: Asid, n: nat)
  {
    Ready(s, t, Idle) && t in s.bytes && n <= s.bytes[t]
  }

  function DoShrinkStart(s: State, t: Asid, n: nat): State
    requires CanShrinkStart(s, t, n)
  {
    At(s, t, Unmap(t, Pages(n), s.sz[t], Resize(Pages(n), n)), NoSub)
  }

  predicate CanClearUser(s: State, t: Asid, v: nat)
  {
    Ready(s, t, Idle) && Slot(t, v) in s.pt
  }

  function DoClearUser(s: State, t: Asid, v: nat): State
    requires CanClearUser(s, t, v)
  {
    var p := s.pt[Slot(t, v)];
    s.(pt := s.pt[Slot(t, v) := p.(perm := p.perm.(u := false))])
  }

  predicate CanReap(s: State, t: Asid, z: Asid)
  {
    Ready(s, t, Idle) && z in s.zombies && z in s.sz
  }

  function DoReap(s: State, t: Asid, z: Asid): State
    requires CanReap(s, t, z)
  {
    At(s.(zombies := s.zombies - {z}), t, Unmap(z, 0, s.sz[z], Delete), NoSub)
  }

  // ----- all steps -----

  predicate Enabled(s: State, t: Asid, e: Event)
  {
    match e
    case Store(v, off, b) => CanStore(s, t, v, off)
    case Fault(v, off) => CanFault(s, t, v, off)
    case TakeSole => CanTakeSole(s, t)
    case CopyoutStart(v, f) => CanCopyoutStart(s, t, v, f)
    case CopyoutBytes => CanCopyoutBytes(s, t)
    case Pop(dest) => CanPop(s, t, dest)
    case PopFail => CanPopFail(s, t)
    case SetRef => CanSetRef(s, t)
    case CopyPage => CanCopyPage(s, t)
    case KernFree(pg) => CanKernFree(s, t, pg)
    case FreeCheck => CanFreeCheck(s, t)
    case FreeDec => CanFreeDec(s, t)
    case FreePush => CanFreePush(s, t)
    case FreeDone => CanFreeDone(s, t)
    case UnmapDone => CanUnmapDone(s, t)
    case ForkStart(child) => CanForkStart(s, t, child)
    case ForkProtect => CanForkProtect(s, t)
    case ForkMap => CanForkMap(s, t)
    case ForkInc => CanForkInc(s, t)
    case ForkDone => CanForkDone(s, t)
    case GrowStart(target, perm) => CanGrowStart(s, t, target, perm)
    case GrowMap => CanGrowMap(s, t)
    case GrowDone => CanGrowDone(s, t)
    case ShrinkStart(n) => CanShrinkStart(s, t, n)
    case ClearUser(v) => CanClearUser(s, t, v)
    case Exit => Ready(s, t, Idle)
    case Reap(z) => CanReap(s, t, z)
  }

  function Do(s: State, t: Asid, e: Event): State
    requires Enabled(s, t, e)
  {
    match e
    case Store(v, off, b) => DoStore(s, t, v, off, b)
    case Fault(v, off) => DoFault(s, t, v, off)
    case TakeSole => DoTakeSole(s, t)
    case CopyoutStart(v, f) => DoCopyoutStart(s, t, v, f)
    case CopyoutBytes => DoCopyoutBytes(s, t)
    case Pop(dest) => DoPop(s, t, dest)
    case PopFail => DoPopFail(s, t)
    case SetRef => DoSetRef(s, t)
    case CopyPage => DoCopyPage(s, t)
    case KernFree(pg) => DoKernFree(s, t, pg)
    case FreeCheck => DoFreeCheck(s, t)
    case FreeDec => DoFreeDec(s, t)
    case FreePush => DoFreePush(s, t)
    case FreeDone => DoFreeDone(s, t)
    case UnmapDone => DoUnmapDone(s, t)
    case ForkStart(child) => DoForkStart(s, t, child)
    case ForkProtect => DoForkProtect(s, t)
    case ForkMap => DoForkMap(s, t)
    case ForkInc => DoForkInc(s, t)
    case ForkDone => DoForkDone(s, t)
    case GrowStart(target, perm) => DoGrowStart(s, t, target, perm)
    case GrowMap => DoGrowMap(s, t)
    case GrowDone => DoGrowDone(s, t)
    case ShrinkStart(n) => DoShrinkStart(s, t, n)
    case ClearUser(v) => DoClearUser(s, t, v)
    case Exit => Die(s, t)
    case Reap(z) => DoReap(s, t, z)
  }
}
