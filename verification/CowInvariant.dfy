/**
  The invariant of the copy-on-write machine: reference counts are exact, a
  writable page has one mapping, free pages are nobody's.
 */
module CowInvariant {
  import opened Optional
  import opened CowModel

  // ----- owners of a page -----

  // The PTE that the operation gives up when its kfree is done.
  predicate Drops(t: Asid, op: Op, sl: Slot)
  {
    (op.CowCopied? && sl == Slot(t, op.v)) || (op.Unmap? && sl == Slot(op.sp, op.j))
  }

  // A PTE that exists but is not counted: mapped into the child and the count not
  // yet raised, or its kfree already dropped the count and the PTE is about to go.
  predicate Excl(t: Asid, th: Thread, sl: Slot)
  {
    || (th.op.Fork? && th.op.st.Mapped? && sl == Slot(th.op.child, th.op.i))
    || (((th.sub.Dying? && !th.sub.kernel) || th.sub.Gone?) && Drops(t, th.op, sl))
  }

  ghost predicate Excluded(s: State, sl: Slot)
  {
    exists t :: t in s.threads && Excl(t, s.threads[t], sl)
  }

  // A PTE whose page kfree has let go: the page may be free, or someone else's by now.
  ghost predicate Stale(s: State, sl: Slot)
  {
    exists t :: t in s.threads && s.threads[t].sub.Gone? && Drops(t, s.threads[t].op, sl)
  }

  // The page a process holds privately in the middle of an operation.
  function Held(th: Thread): Option<Page>
  {
    if th.sub.Checked? && th.sub.kernel then Some(th.sub.pg)
    else match th.op
      case CowHave(_, p, _) => Some(p)
      case CowCopied(_, p, _) => Some(p)
      case GrowHave(_, _, _, p) => Some(p)
      case GrowDrop(_, p) => if th.sub.Dying? || th.sub.Gone? then None else Some(p)
      case _ => None
  }

  // The page a process has between the free list and its count.
  function Flight(th: Thread): Option<Page>
  {
    match th.sub
    case Popped(pg, _) => Some(pg)
    case Dying(pg, _) => Some(pg)
    case _ => None
  }

  ghost function PteOwners(s: State, pg: Page): set<Slot>
  {
    set sl | sl in s.pt && s.pt[sl].pa == pg && !Excluded(s, sl)
  }

  ghost function Holders(s: State, pg: Page): set<Asid>
  {
    set t | t in s.threads && Held(s.threads[t]) == Some(pg)
  }

  // Counted PTEs, operations in progress, and the kernel itself.
  ghost function OwnerCount(s: State, pg: Page): nat
  {
    |PteOwners(s, pg)| + |Holders(s, pg)| + if pg in s.kern then 1 else 0
  }

  // ----- structure -----

  function Target(op: Op): Option<Asid>
  {
    match op
    case Fork(c, _, _) => Some(c)
    case Unmap(sp, _, _, Delete) => Some(sp)
    case _ => None
  }

  ghost predicate Shape(s: State)
  {
    && s.ref.Keys == s.mem.Keys
    && (forall pg :: pg in s.mem ==> |s.mem[pg]| == PGSIZE)
    && (forall sl :: sl in s.pt ==> sl.a in s.sz && s.pt[sl].pa in s.ref && s.pt[sl].perm.r)
    && (forall sl :: sl in s.pt && s.pt[sl].cow ==> !s.pt[sl].perm.w)
    && s.kern <= s.ref.Keys
    && (forall t :: t in s.threads ==> t in s.sz && t !in s.zombies)
    && (forall z :: z in s.zombies ==> z in s.sz)
  }

  // An address space under construction or being torn down belongs to one process.
  ghost predicate Workers(s: State)
  {
    && (forall t :: t in s.threads && Target(s.threads[t].op).Some? ==>
          var c := Target(s.threads[t].op).value;
          c in s.sz && c !in s.threads && c !in s.zombies)
    && (forall t, t' :: t in s.threads && t' in s.threads && t != t' && Target(s.threads[t].op).Some? ==>
          Target(s.threads[t].op) != Target(s.threads[t'].op))
  }

  // Which pages of its own space a live process has mapped.
  predicate OwnPage(op: Op, sz: nat, v: nat)
  {
    match op
    case Grow(a, _, _) => v < a
    case GrowHave(a, _, _, _) => v < a
    case GrowDrop(a, _) => v < a
    case Unmap(_, j, hi, Resize(n, _)) => v < n || j <= v < hi
    case _ => v < sz
  }

  predicate TargetPage(op: Op, v: nat)
  {
    match op
    case Fork(_, i, st) => v < i || (st.Mapped? && v == i)
    case Unmap(_, j, hi, Delete) => j <= v < hi
    case _ => false
  }

  ghost predicate Spans(s: State)
  {
    && (forall t, v: nat :: t in s.threads && t in s.sz ==>
          (Slot(t, v) in s.pt <==> OwnPage(s.threads[t].op, s.sz[t], v)))
    && (forall t, v: nat :: t in s.threads && Target(s.threads[t].op).Some? ==>
          (Slot(Target(s.threads[t].op).value, v) in s.pt <==> TargetPage(s.threads[t].op, v)))
    && (forall z, v: nat :: z in s.zombies && z in s.sz ==> (Slot(z, v) in s.pt <==> v < s.sz[z]))
  }

  predicate OutOk(out: Option<Write>)
  {
    out.Some? ==> out.value.off + |out.value.bytes| <= PGSIZE
  }

  // The PTE of page v of process t exists and has the given COW bit.
  predicate Here(s: State, t: Asid, v: nat, cow: bool)
  {
    t in s.sz && v < s.sz[t] && Slot(t, v) in s.pt && s.pt[Slot(t, v)].cow == cow
  }

  ghost predicate OpOk(s: State, t: Asid, op: Op)
    requires t in s.sz
  {
    match op
    case Idle => true
    case Fork(c, i, st) =>
      && i <= s.sz[t]
      && (!st.Start? ==> i < s.sz[t] && Slot(t, i) in s.pt && !s.pt[Slot(t, i)].perm.w)
      && (forall v: nat :: Slot(c, v) in s.pt ==> Slot(t, v) in s.pt && s.pt[Slot(c, v)] == s.pt[Slot(t, v)])
    case CowSole(v) => Here(s, t, v, true)
    case CowNeed(v, out) => Here(s, t, v, true) && OutOk(out)
    case CowHave(v, p, out) => Here(s, t, v, true) && OutOk(out) && p in s.ref
    case CowCopied(v, p, out) => Here(s, t, v, true) && OutOk(out) && p in s.ref
    case CopyBytes(v, f, rw) => Here(s, t, v, false) && OutOk(Some(f)) && (rw ==> s.pt[Slot(t, v)].perm.w)
    case Grow(a, target, perm) => s.sz[t] <= a <= Pages(target) && perm.r
    case GrowHave(a, target, perm, p) => s.sz[t] <= a < Pages(target) && perm.r && p in s.ref
    case GrowDrop(a, p) => s.sz[t] <= a && p in s.ref
    case Unmap(sp, j, hi, fin) =>
      j <= hi && (fin.Resize? ==> sp == t && fin.n <= j && fin.n <= s.sz[t] && Pages(fin.size) == fin.n)
  }

  ghost predicate SubOk(s: State, t: Asid, op: Op, sub: Sub)
  {
    match sub
    case NoSub => true
    case Popped(pg, dest) => pg in s.ref && (if dest.ToKernel? then KernelMayAlloc(op) else OpWantsPage(op))
    case Checked(pg, kernel) => pg in s.ref && (if kernel then KernelMayFree(op) else FreeTarget(s, t, op) == Some(pg))
    case Dying(pg, kernel) => pg in s.ref && (if kernel then KernelMayFree(op) else FreeTarget(s, t, op) == Some(pg))
    case Gone(pg) => pg in s.ref && FreeTarget(s, t, op) == Some(pg)
  }

  ghost predicate Ops(s: State)
  {
    forall t :: t in s.threads && t in s.sz ==>
      OpOk(s, t, s.threads[t].op) && SubOk(s, t, s.threads[t].op, s.threads[t].sub)
  }

  ghost predicate Struct(s: State)
  {
    Shape(s) && Workers(s) && Spans(s) && Ops(s)
  }

  // ----- ownership -----

  // reference_counter is exactly the number of owners.
  ghost predicate Exact(s: State)
  {
    forall pg :: pg in s.ref ==> s.ref[pg] == OwnerCount(s, pg)
  }

  // Pages on the free list, and pages on their way to or from it, have no owner.
  ghost predicate Lists(s: State)
  {
    && (forall i :: 0 <= i < |s.free| ==> s.free[i] in s.ref && s.ref[s.free[i]] == 0)
    && (forall i, j :: 0 <= i < j < |s.free| ==> s.free[i] != s.free[j])
    && (forall t :: t in s.threads && Flight(s.threads[t]).Some? ==>
          var pg := Flight(s.threads[t]).value;
          pg in s.ref && s.ref[pg] == 0 && pg !in s.free)
    && (forall t, t' :: t in s.threads && t' in s.threads && t != t' && Flight(s.threads[t]).Some? ==>
          Flight(s.threads[t]) != Flight(s.threads[t']))
  }

  // A fault handler that saw a count of one still has the page to itself.
  predicate SoleOk(s: State, t: Asid, op: Op)
  {
    op.CowSole? && Here(s, t, op.v, true) && s.pt[Slot(t, op.v)].pa in s.ref ==> s.ref[s.pt[Slot(t, op.v)].pa] == 1
  }

  // Pages that are not user memory, or not yet, have one owner.
  ghost predicate Private(s: State)
  {
    && (forall pg :: pg in s.kern && pg in s.ref ==> s.ref[pg] == 1)
    && (forall t :: t in s.threads && Held(s.threads[t]).Some? && Held(s.threads[t]).value in s.ref ==>
          s.ref[Held(s.threads[t]).value] == 1)
    && (forall t :: t in s.threads ==> SoleOk(s, t, s.threads[t].op))
  }

  // A writable PTE shares its page with no other PTE that is not stale, and sharers agree on COW.
  ghost predicate Sharing(s: State)
  {
    forall x, y ::
      x in s.pt && y in s.pt && x != y && s.pt[x].pa == s.pt[y].pa && !Stale(s, x) && !Stale(s, y) ==>
      !s.pt[x].perm.w && !s.pt[y].perm.w && s.pt[x].cow == s.pt[y].cow
  }

  ghost predicate Ownership(s: State)
  {
    Exact(s) && Lists(s) && Private(s) && Sharing(s)
  }

  // The page table of a live process holds the pages below PGROUNDUP(p->sz).
  ghost predicate Sizes(s: State)
  {
    forall t :: t in s.threads ==> t in s.bytes && t in s.sz && s.sz[t] == Pages(s.bytes[t])
  }

  ghost predicate Inv(s: State)
  {
    Struct(s) && Ownership(s) && Sizes(s) && !s.stuck
  }
}
