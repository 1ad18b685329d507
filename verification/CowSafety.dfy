/**
  Safety of the copy-on-write machine over every run: reference counts stay
  exact, no panic is reached, and kfree never returns with its lock held.
 */
module CowSafety {
  import opened Optional
  import opened CowModel
  import opened CowInvariant
  import opened CowStruct
  import opened CowOwners
  import opened CowOwnership
  import opened CowTransfer
  import opened CowForkGrow

  lemma MineOf(s: State, t: Asid)
    requires Struct(s) && t in s.threads
    ensures Shape(s) && Mine(s, t)
  {
    assert OpOk(s, t, s.threads[t].op) && SubOk(s, t, s.threads[t].op, s.threads[t].sub);
  }

  // Structure from the local lemma, ownership from its own: together the invariant.
  lemma Combine(s: State, s': State, t: Asid)
    requires Inv(s) && Step(s, s', t) && Ownership(s') && !s'.stuck
    requires s'.bytes == s.bytes && s'.sz == s.sz
    ensures Inv(s')
  {
    hide Struct, Ownership, Local, Shape;
    CombineSized(s, s', t);
  }

  lemma CombineSized(s: State, s': State, t: Asid)
    requires Inv(s) && Step(s, s', t) && Ownership(s') && Sizes(s') && !s'.stuck
    ensures Inv(s')
  {
    hide Struct, Ownership, Step;
    StructKept(s, s', t);
  }

  lemma SizeOf(s: State, t: Asid)
    requires Inv(s) && t in s.threads
    ensures t in s.bytes && t in s.sz && s.sz[t] == Pages(s.bytes[t])
  {
    hide Struct, Ownership;
  }

  // A step that sets the size of address space a.
  lemma SizesSet(s: State, s': State, t: Asid, a: Asid)
    requires Inv(s) && Step(s, s', t) && (a == t || a !in s.threads)
    requires forall x :: x in s.bytes && x != a ==> x in s'.bytes && s'.bytes[x] == s.bytes[x]
    requires forall x :: x in s.sz && x != a ==> x in s'.sz && s'.sz[x] == s.sz[x]
    requires a in s.threads ==> a in s'.bytes && a in s'.sz && s'.sz[a] == Pages(s'.bytes[a])
    ensures Sizes(s')
  {
    hide Struct, Ownership, Local, Shape;
  }

  // A page mapped by an idle process has a positive count, so no fault handler kills it for that.
  lemma IdlePositive(s: State, t: Asid, v: nat)
    requires Inv(s) && Ready(s, t, Idle) && Slot(t, v) in s.pt
    ensures s.pt[Slot(t, v)].pa in s.ref && s.ref[s.pt[Slot(t, v)].pa] >= 1
  {
    hide Spans, Lists, Private, Sharing;
    OwnSlot(s, t, v);
    CountedPositive(s, Slot(t, v));
  }

  lemma KeepFault(s: State, t: Asid, v: nat, off: nat)
    requires Inv(s) && CanFault(s, t, v, off)
    ensures Inv(DoFault(s, t, v, off)) && t in DoFault(s, t, v, off).threads
  {
    hide Struct, Ownership, Touch, Local, Shape, Mine;
    IdlePositive(s, t, v);
    MineOf(s, t);
    StepFault(s, t, v, off);
    OwnFault(s, t, v, off);
    Combine(s, DoFault(s, t, v, off), t);
  }

  lemma KeepCopyoutStart(s: State, t: Asid, v: nat, f: Write)
    requires Inv(s) && CanCopyoutStart(s, t, v, f)
    ensures Inv(DoCopyoutStart(s, t, v, f))
  {
    hide Struct, Ownership, Touch, Local, Shape, Mine;
    IdlePositive(s, t, v);
    MineOf(s, t);
    StepCopyoutStart(s, t, v, f);
    OwnCopyoutStart(s, t, v, f);
    Combine(s, DoCopyoutStart(s, t, v, f), t);
  }

  lemma KeepCopyoutBytes(s: State, t: Asid)
    requires Inv(s) && CanCopyoutBytes(s, t)
    ensures Inv(DoCopyoutBytes(s, t))
  {
    hide Struct, Ownership, Touch, Local, Shape, Mine;
    MineOf(s, t);
    StepCopyoutBytes(s, t);
    OwnCopyoutBytes(s, t);
    Combine(s, DoCopyoutBytes(s, t), t);
  }

  lemma KeepTakeSole(s: State, t: Asid)
    requires Inv(s) && CanTakeSole(s, t)
    ensures Inv(DoTakeSole(s, t))
  {
    hide Struct, Ownership, Touch, Local, Shape, Mine;
    MineOf(s, t);
    StepTakeSole(s, t);
    OwnTakeSole(s, t);
    Combine(s, DoTakeSole(s, t), t);
  }

  lemma FreeHead(s: State)
    requires Inv(s) && s.free != []
    ensures s.free[0] in s.ref
  {
    hide Struct, Exact, Private, Sharing;
  }

  lemma KeepPop(s: State, t: Asid, dest: Dest)
    requires Inv(s) && CanPop(s, t, dest)
    ensures Inv(DoPop(s, t, dest))
  {
    hide Struct, Ownership, Touch, Local, Shape, Mine;
    MineOf(s, t);
    FreeHead(s);
    StepPop(s, t, dest);
    OwnPop(s, t, dest);
    Combine(s, DoPop(s, t, dest), t);
  }

  lemma KeepDie(s: State, t: Asid)
    requires Inv(s) && Calm(s, t) && (s.threads[t].op.Idle? || s.threads[t].op.CowNeed?)
    ensures Inv(Die(s, t))
  {
    hide Struct, Ownership;
    StructDie(s, t);
    OwnPopulation(s, Die(s, t));
  }

  lemma KeepPopFail(s: State, t: Asid)
    requires Inv(s) && CanPopFail(s, t)
    ensures Inv(DoPopFail(s, t))
  {
    hide Struct, Ownership, Touch, Local, Shape, Mine;
    if s.threads[t].op.CowNeed? && s.threads[t].op.out.None? {
      KeepDie(s, t);
    } else {
      MineOf(s, t);
      SizeOf(s, t);
      StepPopFail(s, t);
      OwnPopFail(s, t);
      Combine(s, DoPopFail(s, t), t);
    }
  }

  lemma KeepSetRef(s: State, t: Asid)
    requires Inv(s) && CanSetRef(s, t)
    ensures Inv(DoSetRef(s, t))
  {
    hide Struct, Ownership, Touch, Local, Shape, Mine;
    MineOf(s, t);
    StepSetRef(s, t);
    OwnSetRef(s, t);
    Combine(s, DoSetRef(s, t), t);
  }

  lemma KeepCopyPage(s: State, t: Asid)
    requires Inv(s) && CanCopyPage(s, t)
    ensures Inv(DoCopyPage(s, t))
  {
    hide Struct, Ownership, Touch, Local, Shape, Mine;
    MineOf(s, t);
    StepCopyPage(s, t);
    OwnCopyPage(s, t);
    Combine(s, DoCopyPage(s, t), t);
  }

  lemma KernelPositive(s: State, pg: Page)
    requires Inv(s) && pg in s.kern
    ensures pg in s.ref && s.ref[pg] == 1
  {
    hide Workers, Spans, Ops, Exact, Lists, Sharing;
  }

  // kfree's panic is unreachable for the kernel's own pages.
  lemma KeepKernFree(s: State, t: Asid, pg: Page)
    requires Inv(s) && CanKernFree(s, t, pg)
    ensures Inv(DoKernFree(s, t, pg))
  {
    hide Struct, Ownership, Touch, Local, Shape, Mine;
    KernelPositive(s, pg);
    MineOf(s, t);
    StepKernFree(s, t, pg);
    OwnKernFree(s, t, pg);
    Combine(s, DoKernFree(s, t, pg), t);
  }

  // The page passed to kfree is mapped by a leaf PTE, or held, and has a positive count.
  lemma FreePositive(s: State, t: Asid)
    requires Inv(s) && CanFreeCheck(s, t)
    ensures FreeTarget(s, t, s.threads[t].op).Some? && s.ref[FreeTarget(s, t, s.threads[t].op).value] >= 1
  {
    hide Lists, Sharing, Ops, Workers, Private, SubOk, Excluded;
    var op := s.threads[t].op;
    HeldFacts(s, t);
    match op
    case CowCopied(v, p, out) =>
      OwnSlot(s, t, v);
      CountedPositive(s, Slot(t, v));
    case Unmap(sp, j, hi, fin) =>
      if fin.Delete? {
        assert Target(op) == Some(sp) && TargetPage(op, j);
        TargetSlot(s, t, sp, j);
      } else {
        assert OwnPage(op, s.sz[t], j);
        OwnSlot(s, t, j);
      }
      CountedPositive(s, Slot(sp, j));
    case GrowDrop(a, p) =>
      assert t in Holders(s, p);
  }

  lemma KeepFreeCheck(s: State, t: Asid)
    requires Inv(s) && CanFreeCheck(s, t)
    ensures Inv(DoFreeCheck(s, t))
  {
    hide Struct, Ownership, Touch, Local, Shape, Mine, FreeTarget;
    FreePositive(s, t);
    MineOf(s, t);
    StepFreeCheck(s, t);
    OwnFreeCheck(s, t);
    Combine(s, DoFreeCheck(s, t), t);
  }

  // Between kfree's two critical sections the count stays positive.
  lemma CheckedPositive(s: State, t: Asid)
    requires Inv(s) && CanFreeDec(s, t)
    ensures s.ref[s.threads[t].sub.pg] >= 1
    ensures s.threads[t].sub.kernel || s.threads[t].op.GrowDrop? ==>
      Held(s.threads[t]) == Some(s.threads[t].sub.pg) && s.ref[s.threads[t].sub.pg] == 1
    ensures !s.threads[t].sub.kernel ==> CallsFree(s.threads[t].op)
  {
    hide Spans, Lists, Sharing;
    var op, sub := s.threads[t].op, s.threads[t].sub;
    assert OpOk(s, t, op) && SubOk(s, t, op, sub);
    if !sub.kernel && (op.CowCopied? || op.Unmap?) {
      DroppedSlot(s, t);
      CountedPositive(s, DropSlot(t, op));
    } else {
      assert Held(s.threads[t]) == Some(sub.pg);
    }
  }

  lemma KeepFreeDec(s: State, t: Asid)
    requires Inv(s) && CanFreeDec(s, t)
    ensures Inv(DoFreeDec(s, t))
  {
    hide Struct, Ownership, Touch, Local, Shape, Mine;
    MineOf(s, t);
    CheckedPositive(s, t);
    HeldFacts(s, t);
    StepFreeDec(s, t);
    if s.threads[t].sub.kernel || s.threads[t].op.GrowDrop? {
      OwnLastHolder(s, t);
    } else {
      OwnDropPte(s, t, DoFreeDec(s, t), DoFreeDec(s, t).threads[t].sub);
    }
    Combine(s, DoFreeDec(s, t), t);
  }

  lemma KeepFreePush(s: State, t: Asid)
    requires Inv(s) && CanFreePush(s, t)
    ensures Inv(DoFreePush(s, t))
  {
    hide Struct, Ownership, Touch, Local, Shape, Mine;
    MineOf(s, t);
    StepFreePush(s, t);
    OwnFreePush(s, t);
    Combine(s, DoFreePush(s, t), t);
  }

  // Which operations can be behind a kfree that has returned.
  lemma AfterKfree(s: State, t: Asid)
    requires Inv(s) && CanFreeDone(s, t)
    ensures CallsFree(s.threads[t].op)
    ensures s.threads[t].op.CowCopied? ==> Slot(t, s.threads[t].op.v) in s.pt
  {
    hide Inv;
    HeldFacts(s, t);
  }

  lemma KeepFreeDone(s: State, t: Asid)
    requires Inv(s) && CanFreeDone(s, t)
    ensures Inv(DoFreeDone(s, t))
  {
    hide Struct, Ownership, Touch, Local, Shape, Mine;
    MineOf(s, t);
    AfterKfree(s, t);
    SizeOf(s, t);
    match s.threads[t].op
    case CowCopied(_, _, _) =>
      StepRemap(s, t);
      OwnRemapped(s, t);
      Combine(s, DoFreeDone(s, t), t);
    case Unmap(_, _, _, _) =>
      StepUnmap(s, t);
      OwnUnmapped(s, t);
      Combine(s, DoFreeDone(s, t), t);
    case GrowDrop(_, _) =>
      StepGrowUndo(s, t);
      OwnGrowUndo(s, t);
      Combine(s, DoFreeDone(s, t), t);
  }

  lemma UnmapSize(s: State, t: Asid)
    requires Inv(s) && CanUnmapDone(s, t) && Step(s, DoUnmapDone(s, t), t)
    ensures Sizes(DoUnmapDone(s, t))
  {
    hide Ownership, Spans, Step, Shape;
    var op := s.threads[t].op;
    HeldFacts(s, t);
    assert op.fin.Delete? ==> Target(op) == Some(op.sp);
    hide Struct, Inv;
    SizesSet(s, DoUnmapDone(s, t), t, op.sp);
  }

  lemma KeepUnmapDone(s: State, t: Asid)
    requires Inv(s) && CanUnmapDone(s, t)
    ensures Inv(DoUnmapDone(s, t))
  {
    hide Struct, Ownership, Touch, Local, Shape, Mine;
    MineOf(s, t);
    StepUnmapDone(s, t);
    OwnUnmapDone(s, t);
    UnmapSize(s, t);
    CombineSized(s, DoUnmapDone(s, t), t);
  }

  lemma NewSpace(s: State, child: Asid)
    requires Inv(s) && child !in s.sz
    ensures child !in s.threads
  {
    hide Workers, Spans, Ops, Ownership;
  }

  lemma KeepForkStart(s: State, t: Asid, child: Asid)
    requires Inv(s) && CanForkStart(s, t, child)
    ensures Inv(DoForkStart(s, t, child))
  {
    hide Struct, Ownership, Touch, Local, Shape, Mine;
    MineOf(s, t);
    StepForkStart(s, t, child);
    OwnForkStart(s, t, child);
    SizeOf(s, t);
    NewSpace(s, child);
    SizesSet(s, DoForkStart(s, t, child), t, child);
    CombineSized(s, DoForkStart(s, t, child), t);
  }

  // uvmcopy's panics on a missing page are unreachable.
  lemma ForkPageExists(s: State, t: Asid)
    requires Inv(s) && CanForkProtect(s, t)
    ensures Slot(t, s.threads[t].op.i) in s.pt
  {
    hide Exact, Lists, Private, Sharing, Ops;
    assert OwnPage(s.threads[t].op, s.sz[t], s.threads[t].op.i);
  }

  lemma KeepForkProtect(s: State, t: Asid)
    requires Inv(s) && CanForkProtect(s, t)
    ensures Inv(DoForkProtect(s, t))
  {
    hide Struct, Ownership, Touch, Local, Shape, Mine;
    MineOf(s, t);
    ForkPageExists(s, t);
    StepForkProtect(s, t);
    OwnForkProtect(s, t);
    Combine(s, DoForkProtect(s, t), t);
  }

  // mappages' remap panic is unreachable in uvmcopy.
  lemma ForkSlotFree(s: State, t: Asid)
    requires Inv(s) && CanForkMap(s, t)
    ensures Slot(s.threads[t].op.child, s.threads[t].op.i) !in s.pt
  {
    hide Exact, Lists, Private, Sharing, Ops;
    assert Target(s.threads[t].op) == Some(s.threads[t].op.child);
    assert !TargetPage(s.threads[t].op, s.threads[t].op.i);
  }

  lemma KeepForkMap(s: State, t: Asid)
    requires Inv(s) && CanForkMap(s, t)
    ensures Inv(DoForkMap(s, t))
  {
    hide Struct, Ownership, Touch, Local, Shape, Mine;
    MineOf(s, t);
    ForkSlotFree(s, t);
    StepForkMap(s, t);
    OwnForkMap(s, t, DoForkMap(s, t));
    Combine(s, DoForkMap(s, t), t);
  }

  lemma KeepForkInc(s: State, t: Asid)
    requires Inv(s) && CanForkInc(s, t)
    ensures Inv(DoForkInc(s, t))
  {
    hide Struct, Ownership, Touch, Local, Shape, Mine;
    MineOf(s, t);
    StepForkInc(s, t);
    OwnForkInc(s, t, DoForkInc(s, t));
    Combine(s, DoForkInc(s, t), t);
  }

  lemma NewChild(s: State, t: Asid)
    requires Inv(s) && CanForkDone(s, t)
    ensures s.threads[t].op.child !in s.threads && s.threads[t].op.child != t
  {
    hide Spans, Ops, Exact, Lists, Private, Sharing;
    assert Target(s.threads[t].op) == Some(s.threads[t].op.child);
  }

  lemma KeepForkDone(s: State, t: Asid)
    requires Inv(s) && CanForkDone(s, t)
    ensures Inv(DoForkDone(s, t))
  {
    hide Struct, Ownership;
    StructForkDone(s, t);
    NewChild(s, t);
    SizeOf(s, t);
    OwnPopulation(s, DoForkDone(s, t));
  }

  lemma KeepReap(s: State, t: Asid, z: Asid)
    requires Inv(s) && CanReap(s, t, z)
    ensures Inv(DoReap(s, t, z))
  {
    hide Struct, Ownership;
    StructReap(s, t, z);
    OwnPopulation(s, DoReap(s, t, z));
  }

  lemma PagesMonotone(m: nat, n: nat)
    requires m <= n
    ensures Pages(m) <= Pages(n)
  {
  }

  lemma KeepGrowStart(s: State, t: Asid, target: nat, perm: Perm)
    requires Inv(s) && CanGrowStart(s, t, target, perm)
    ensures Inv(DoGrowStart(s, t, target, perm))
  {
    hide Struct, Ownership, Touch, Local, Shape, Mine;
    MineOf(s, t);
    SizeOf(s, t);
    PagesMonotone(s.bytes[t], target);
    StepGrowStart(s, t, target, perm);
    OwnGrowStart(s, t, target, perm);
    Combine(s, DoGrowStart(s, t, target, perm), t);
  }

  // mappages' remap panic is unreachable in uvmalloc.
  lemma GrowSlotFree(s: State, t: Asid)
    requires Inv(s) && CanGrowMap(s, t)
    ensures Slot(t, s.threads[t].op.a) !in s.pt
  {
    hide Exact, Lists, Private, Sharing, Ops;
    assert !OwnPage(s.threads[t].op, s.sz[t], s.threads[t].op.a);
  }

  lemma KeepGrowMap(s: State, t: Asid)
    requires Inv(s) && CanGrowMap(s, t)
    ensures Inv(DoGrowMap(s, t))
  {
    hide Struct, Ownership, Touch, Local, Shape, Mine;
    MineOf(s, t);
    GrowSlotFree(s, t);
    StepGrowMap(s, t);
    OwnGrowMap(s, t);
    Combine(s, DoGrowMap(s, t), t);
  }

  lemma KeepGrowDone(s: State, t: Asid)
    requires Inv(s) && CanGrowDone(s, t)
    ensures Inv(DoGrowDone(s, t))
  {
    hide Struct, Ownership, Touch, Local, Shape, Mine;
    MineOf(s, t);
    StepGrowDone(s, t);
    OwnGrowDone(s, t);
    SizesSet(s, DoGrowDone(s, t), t, t);
    CombineSized(s, DoGrowDone(s, t), t);
  }

  lemma KeepShrinkStart(s: State, t: Asid, n: nat)
    requires Inv(s) && CanShrinkStart(s, t, n)
    ensures Inv(DoShrinkStart(s, t, n))
  {
    hide Struct, Ownership, Touch, Local, Shape, Mine;
    MineOf(s, t);
    SizeOf(s, t);
    PagesMonotone(n, s.bytes[t]);
    StepShrinkStart(s, t, n);
    OwnShrinkStart(s, t, n);
    Combine(s, DoShrinkStart(s, t, n), t);
  }

  lemma KeepClearUser(s: State, t: Asid, v: nat)
    requires Inv(s) && CanClearUser(s, t, v)
    ensures Inv(DoClearUser(s, t, v))
  {
    hide Struct, Ownership, Touch, Local, Shape, Mine;
    MineOf(s, t);
    StepClearUser(s, t, v);
    OwnClearUser(s, t, v);
    Combine(s, DoClearUser(s, t, v), t);
  }

  // Every step keeps the invariant.
  lemma StepKeeps(s: State, t: Asid, e: Event)
    requires Inv(s) && Enabled(s, t, e)
    ensures Inv(Do(s, t, e))
  {
    hide Inv;
    match e
    case Store(v, off, b) => OwnStore(s, t, v, off, b);
    case Fault(v, off) => KeepFault(s, t, v, off);
    case TakeSole => KeepTakeSole(s, t);
    case CopyoutStart(v, f) => KeepCopyoutStart(s, t, v, f);
    case CopyoutBytes => KeepCopyoutBytes(s, t);
    case Pop(dest) => KeepPop(s, t, dest);
    case PopFail => KeepPopFail(s, t);
    case SetRef => KeepSetRef(s, t);
    case CopyPage => KeepCopyPage(s, t);
    case KernFree(pg) => KeepKernFree(s, t, pg);
    case FreeCheck => KeepFreeCheck(s, t);
    case FreeDec => KeepFreeDec(s, t);
    case FreePush => KeepFreePush(s, t);
    case FreeDone => KeepFreeDone(s, t);
    case UnmapDone => KeepUnmapDone(s, t);
    case ForkStart(child) => KeepForkStart(s, t, child);
    case ForkProtect => KeepForkProtect(s, t);
    case ForkMap => KeepForkMap(s, t);
    case ForkInc => KeepForkInc(s, t);
    case ForkDone => KeepForkDone(s, t);
    case GrowStart(target, perm) => KeepGrowStart(s, t, target, perm);
    case GrowMap => KeepGrowMap(s, t);
    case GrowDone => KeepGrowDone(s, t);
    case ShrinkStart(n) => KeepShrinkStart(s, t, n);
    case ClearUser(v) => KeepClearUser(s, t, v);
    case Exit => KeepDie(s, t);
    case Reap(z) => KeepReap(s, t, z);
  }
}
