/**
  Lazy sharing looks like eager copying: every step of the copy-on-write
  machine is, on what each process sees, a step of a machine in which every
  process owns its pages outright.
 */
module CowRefinement {
  import opened Optional
  import opened CowModel
  import opened CowInvariant
  import opened CowStruct
  import opened CowOwners
  import opened CowOwnership
  import opened CowTransfer
  import opened CowForkGrow
  import opened CowSafety

  // ----- the eager machine -----

  datatype APage = APage(perm: Perm, data: Data)

  type AState = map<Asid, map<nat, APage>>

  datatype AEvent =
    | AStutter
    | AStore(p: Asid, v: nat, off: nat, b: int)
    | ACopyout(p: Asid, v: nat, f: Write)
    | AFork(p: Asid, c: Asid)
    | AMap(p: Asid, v: nat, perm: Perm)
    | AShrink(p: Asid, n: nat)
    | AClear(p: Asid, v: nat)
    | AExit(p: Asid)

  predicate AEnabled(a: AState, e: AEvent)
  {
    match e
    case AStutter => true
    case AStore(p, v, off, b) => p in a && v in a[p] && a[p][v].perm.u && a[p][v].perm.w && off < |a[p][v].data|
    case ACopyout(p, v, f) => p in a && v in a[p] && f.off + |f.bytes| <= |a[p][v].data|
    case AFork(p, c) => p in a && c !in a
    case AMap(p, v, perm) => p in a && v !in a[p]
    case AShrink(p, n) => p in a
    case AClear(p, v) => p in a && v in a[p]
    case AExit(p) => p in a
  }

  function ADo(a: AState, e: AEvent): AState
    requires AEnabled(a, e)
  {
    match e
    case AStutter => a
    case AStore(p, v, off, b) => a[p := a[p][v := APage(a[p][v].perm, a[p][v].data[off := b])]]
    case ACopyout(p, v, f) => a[p := a[p][v := APage(a[p][v].perm, Splice(a[p][v].data, f))]]
    case AFork(p, c) => a[c := a[p]]
    case AMap(p, v, perm) =>
      var pages: map<nat, APage> := a[p][v := APage(perm, Fill(0))];
      a[p := pages]
    case AShrink(p, n) => a[p := map v | v in a[p] && v < n :: a[p][v]]
    case AClear(p, v) => a[p := a[p][v := APage(a[p][v].perm.(u := false), a[p][v].data)]]
    case AExit(p) => a - {p}
  }

  // ----- what each process sees -----

  function Vis(op: Op, sz: nat): nat
  {
    match op
    case Grow(a, _, _) => a
    case GrowHave(a, _, _, _) => a
    case GrowDrop(a, _) => a
    case Unmap(_, _, _, Resize(n, _)) => n
    case _ => sz
  }

  // A COW page counts as writable: the store succeeds after the fault.
  function Seen(p: Pte): Perm
  {
    p.perm.(w := p.perm.w || p.cow)
  }

  // The physical page behind a virtual one.  A finished private copy counts at once,
  // although its PTE is installed only after kfree has let go of the shared page.
  function Back(s: State, sl: Slot): Page
    requires sl in s.pt
  {
    if sl.a in s.threads && s.threads[sl.a].op.CowCopied? && s.threads[sl.a].op.v == sl.v then
      s.threads[sl.a].op.fresh_
    else s.pt[sl].pa
  }

  function PageAt(s: State, sl: Slot): APage
  {
    if sl in s.pt && Back(s, sl) in s.mem then APage(Seen(s.pt[sl]), s.mem[Back(s, sl)])
    else APage(Perm(false, false, false, false), [])
  }

  function View(s: State, p: Asid): map<nat, APage>
    requires p in s.threads && p in s.sz
  {
    map v: nat | v < Vis(s.threads[p].op, s.sz[p]) :: PageAt(s, Slot(p, v))
  }

  function Abs(s: State): AState
  {
    map p | p in s.threads && p in s.sz :: View(s, p)
  }

  // The eager step that a step of the machine performs.
  function AEventOf(s: State, t: Asid, e: Event): AEvent
    requires Enabled(s, t, e)
  {
    var op := s.threads[t].op;
    match e
    case Store(v, off, b) => AStore(t, v, off, b)
    case CopyoutBytes => ACopyout(t, op.v, op.f)
    case PopFail =>
      if op.CowNeed? && op.out.None? then AExit(t)
      else if op.Grow? then AShrink(t, s.sz[t])
      else AStutter
    case FreeDone => if op.GrowDrop? then AShrink(t, s.sz[t]) else AStutter
    case ForkDone => AFork(t, op.child)
    case GrowMap => AMap(t, op.a, op.perm)
    case ShrinkStart(n) => AShrink(t, Pages(n))
    case ClearUser(v) => AClear(t, v)
    case Exit => AExit(t)
    case _ => AStutter
  }

  // ----- frames -----

  // No process but t sees page q.
  ghost predicate Unseen(s: State, t: Asid, q: Page)
  {
    forall p, v: nat ::
      p in s.threads && p != t && p in s.sz && v < Vis(s.threads[p].op, s.sz[p]) && Slot(p, v) in s.pt ==>
      Back(s, Slot(p, v)) != q
  }

  lemma OtherView(s: State, s': State, t: Asid, p: Asid)
    requires Shape(s) && Workers(s) && Touch(s, s', t) && p in s.threads && p != t && p in s'.sz && s'.sz[p] == s.sz[p]
    requires s'.mem.Keys == s.mem.Keys
    requires forall q :: q in s.mem && s'.mem[q] != s.mem[q] ==> Unseen(s, t, q)
    ensures View(s', p) == View(s, p)
  {
    forall v: nat | v < Vis(s.threads[p].op, s.sz[p]) ensures PageAt(s', Slot(p, v)) == PageAt(s, Slot(p, v)) {
      assert SameSlot(s, s', Slot(p, v));
    }
  }

  // The step of t changes at most t's own view.
  lemma OneView(s: State, s': State, t: Asid)
    requires Shape(s) && Workers(s) && Touch(s, s', t) && Shape(s')
    requires s'.mem.Keys == s.mem.Keys
    requires forall q :: q in s.mem && s'.mem[q] != s.mem[q] ==> Unseen(s, t, q)
    ensures t in Abs(s) && t in Abs(s') && Abs(s') == Abs(s)[t := View(s', t)] && Abs(s)[t] == View(s, t)
  {
    hide View, Touch;
    assert s'.threads.Keys == s.threads.Keys && t in s.threads by { TouchThreads(s, s', t); }
    forall p | p in s.threads && p != t ensures View(s', p) == View(s, p) {
      TouchSize(s, s', t, p);
      OtherView(s, s', t, p);
    }
  }

  lemma TouchThreads(s: State, s': State, t: Asid)
    requires Touch(s, s', t)
    ensures s'.threads.Keys == s.threads.Keys && t in s.threads
  {
  }

  lemma TouchSize(s: State, s': State, t: Asid, p: Asid)
    requires Shape(s) && Workers(s) && Touch(s, s', t) && p in s.threads && p != t
    ensures p in s'.sz && s'.sz[p] == s.sz[p]
  {
  }

  // t's own view is unchanged too.
  lemma Stutter(s: State, s': State, t: Asid)
    requires Shape(s) && Workers(s) && Touch(s, s', t) && Shape(s') && s'.mem.Keys == s.mem.Keys
    requires forall q :: q in s.mem && s'.mem[q] != s.mem[q] ==> Unseen(s, t, q)
    requires t in s'.threads && t in s'.sz && Vis(s'.threads[t].op, s'.sz[t]) == Vis(s.threads[t].op, s.sz[t])
    requires forall v: nat :: v < Vis(s.threads[t].op, s.sz[t]) ==> PageAt(s', Slot(t, v)) == PageAt(s, Slot(t, v))
    ensures Abs(s') == Abs(s)
  {
    OneView(s, s', t);
    hide Shape, Workers, Touch, PageAt, Vis;
    assert View(s', t) == View(s, t);
  }

  // A visible page whose PTE is its backing is counted, hence not stale.
  lemma SeenCounted(s: State, p: Asid, v: nat)
    requires Inv(s) && p in s.threads && p in s.sz && v < Vis(s.threads[p].op, s.sz[p]) && Slot(p, v) in s.pt
    ensures Excluded(s, Slot(p, v)) ==> s.threads[p].op.CowCopied? && s.threads[p].op.v == v
  {
    hide Spans, Exact, Lists, Private, Sharing, Sizes;
    OwnSlot(s, p, v);
    assert OpOk(s, p, s.threads[p].op);
    hide Excluded;
    assert Target(s.threads[p].op).Some? ==> Target(s.threads[p].op).value != p;
  }

  // The page behind a visible one has an owner.
  lemma BackOwned(s: State, p: Asid, v: nat)
    requires Inv(s) && p in s.threads && p in s.sz && v < Vis(s.threads[p].op, s.sz[p]) && Slot(p, v) in s.pt
    ensures var q, op := Back(s, Slot(p, v)), s.threads[p].op;
      && q in s.ref && s.ref[q] >= 1
      && (if op.CowCopied? && op.v == v then p in Holders(s, q) else Slot(p, v) in PteOwners(s, q))
  {
    hide Spans, Ops, Workers, Exact, Lists, Private, Sharing, Sizes, OpOk;
    SeenCounted(s, p, v);
    HeldFacts(s, p);
    hide Excluded;
    if !(s.threads[p].op.CowCopied? && s.threads[p].op.v == v) {
      CountedPositive(s, Slot(p, v));
    }
  }

  // A page some operation holds is behind nobody else's visible page.
  lemma HeldNotBack(s: State, t: Asid, p: Asid, v: nat)
    requires Inv(s) && t in s.threads && Held(s.threads[t]).Some? && p in s.threads && p in s.sz
    requires v < Vis(s.threads[p].op, s.sz[p]) && Slot(p, v) in s.pt
    ensures Back(s, Slot(p, v)) == Held(s.threads[t]).value ==> p == t && s.threads[t].op.CowCopied?
  {
    hide Struct, Lists, Sharing, Sizes, Excluded;
    var q := Held(s.threads[t]).value;
    BackOwned(s, p, v);
    if Back(s, Slot(p, v)) == q {
      assert t in Holders(s, q);
      LoneHolder(s, t, q);
    }
  }

  lemma HeldUnseen(s: State, t: Asid)
    requires Inv(s) && t in s.threads && Held(s.threads[t]).Some?
    ensures Unseen(s, t, Held(s.threads[t]).value) && Held(s.threads[t]).value in s.mem
    ensures t in s.sz && (!s.threads[t].op.CowCopied? ==>
      forall v: nat :: v < Vis(s.threads[t].op, s.sz[t]) && Slot(t, v) in s.pt ==>
        Back(s, Slot(t, v)) != Held(s.threads[t]).value)
  {
    hide Workers, Spans, Ops, Exact, Lists, Private, Sharing, Back, Vis;
    HeldFacts(s, t);
    hide Inv, Struct;
    forall p, v: nat | p in s.threads && p in s.sz && v < Vis(s.threads[p].op, s.sz[p]) && Slot(p, v) in s.pt
      ensures Back(s, Slot(p, v)) == Held(s.threads[t]).value ==> p == t && s.threads[t].op.CowCopied?
    {
      HeldNotBack(s, t, p, v);
    }
  }

  // A page without a count is behind no visible page.
  lemma UnownedUnseen(s: State, q: Page)
    requires Inv(s) && q in s.ref && s.ref[q] == 0
    ensures forall p, v: nat ::
      p in s.threads && p in s.sz && v < Vis(s.threads[p].op, s.sz[p]) && Slot(p, v) in s.pt ==>
      Back(s, Slot(p, v)) != q
  {
    hide Inv, Back, Vis, PteOwners, Holders;
    forall p, v: nat | p in s.threads && p in s.sz && v < Vis(s.threads[p].op, s.sz[p]) && Slot(p, v) in s.pt
      ensures Back(s, Slot(p, v)) != q
    {
      BackOwned(s, p, v);
    }
  }

  // ----- steps that no process notices -----

  lemma Prepare(s: State, t: Asid)
    requires Inv(s) && t in s.threads
    ensures Shape(s) && Workers(s) && Mine(s, t)
  {
    hide Ownership, Mine;
    MineOf(s, t);
  }

  lemma SeeFault(s: State, t: Asid, v: nat, off: nat)
    requires Inv(s) && CanFault(s, t, v, off)
    ensures Abs(DoFault(s, t, v, off)) == Abs(s)
  {
    hide Inv, Touch, Shape, Workers, Mine, OpOk, SubOk;
    Prepare(s, t);
    IdlePositive(s, t, v);
    StepFault(s, t, v, off);
    Stutter(s, DoFault(s, t, v, off), t);
  }

  lemma SeeCopyoutStart(s: State, t: Asid, v: nat, f: Write)
    requires Inv(s) && CanCopyoutStart(s, t, v, f)
    ensures Abs(DoCopyoutStart(s, t, v, f)) == Abs(s)
  {
    hide Inv, Touch, Shape, Workers, Mine, OpOk, SubOk;
    Prepare(s, t);
    IdlePositive(s, t, v);
    StepCopyoutStart(s, t, v, f);
    Stutter(s, DoCopyoutStart(s, t, v, f), t);
  }

  lemma SeePop(s: State, t: Asid, dest: Dest)
    requires Inv(s) && CanPop(s, t, dest)
    ensures Abs(DoPop(s, t, dest)) == Abs(s)
  {
    hide Inv, Touch, Shape, Workers, Mine, OpOk, SubOk;
    Prepare(s, t);
    FreeHead(s);
    StepPop(s, t, dest);
    Stutter(s, DoPop(s, t, dest), t);
  }

  lemma SeeKernFree(s: State, t: Asid, pg: Page)
    requires Inv(s) && CanKernFree(s, t, pg)
    ensures Abs(DoKernFree(s, t, pg)) == Abs(s)
  {
    hide Inv, Touch, Shape, Workers, Mine, OpOk, SubOk;
    Prepare(s, t);
    KernelPositive(s, pg);
    StepKernFree(s, t, pg);
    Stutter(s, DoKernFree(s, t, pg), t);
  }

  lemma SeeFreeCheck(s: State, t: Asid)
    requires Inv(s) && CanFreeCheck(s, t)
    ensures Abs(DoFreeCheck(s, t)) == Abs(s)
  {
    hide Inv, Touch, Shape, Workers, Mine, OpOk, SubOk;
    Prepare(s, t);
    FreePositive(s, t);
    StepFreeCheck(s, t);
    Stutter(s, DoFreeCheck(s, t), t);
  }

  lemma SeeForkStart(s: State, t: Asid, child: Asid)
    requires Inv(s) && CanForkStart(s, t, child)
    ensures Abs(DoForkStart(s, t, child)) == Abs(s)
  {
    hide Inv, Touch, Shape, Workers, Mine, OpOk, SubOk;
    Prepare(s, t);
    StepForkStart(s, t, child);
    Stutter(s, DoForkStart(s, t, child), t);
  }

  lemma SeeForkInc(s: State, t: Asid)
    requires Inv(s) && CanForkInc(s, t)
    ensures Abs(DoForkInc(s, t)) == Abs(s)
  {
    hide Inv, Touch, Shape, Workers, Mine, OpOk, SubOk;
    Prepare(s, t);
    StepForkInc(s, t);
    Stutter(s, DoForkInc(s, t), t);
  }

  lemma SeeGrowStart(s: State, t: Asid, target: nat, perm: Perm)
    requires Inv(s) && CanGrowStart(s, t, target, perm)
    ensures Abs(DoGrowStart(s, t, target, perm)) == Abs(s)
  {
    hide Inv, Touch, Shape, Workers, Mine, OpOk, SubOk;
    Prepare(s, t);
    SizeOf(s, t);
    PagesMonotone(s.bytes[t], target);
    StepGrowStart(s, t, target, perm);
    Stutter(s, DoGrowStart(s, t, target, perm), t);
  }

  lemma SeeGrowDone(s: State, t: Asid)
    requires Inv(s) && CanGrowDone(s, t)
    ensures Abs(DoGrowDone(s, t)) == Abs(s)
  {
    hide Inv, Touch, Shape, Workers, Mine, OpOk, SubOk;
    Prepare(s, t);
    StepGrowDone(s, t);
    Stutter(s, DoGrowDone(s, t), t);
  }

  // ----- steps behind the scenes of one process -----

  lemma SeeTakeSole(s: State, t: Asid)
    requires Inv(s) && CanTakeSole(s, t)
    ensures Abs(DoTakeSole(s, t)) == Abs(s)
  {
    hide Inv, Touch, Shape, Workers, Mine, OpOk, SubOk;
    Prepare(s, t);
    SoleHere(s, t);
    StepTakeSole(s, t);
    Stutter(s, DoTakeSole(s, t), t);
  }

  lemma SoleHere(s: State, t: Asid)
    requires Inv(s) && CanTakeSole(s, t)
    ensures s.pt[Slot(t, s.threads[t].op.v)].cow
  {
    hide Ownership;
    HeldFacts(s, t);
  }

  lemma SeeSetRef(s: State, t: Asid)
    requires Inv(s) && CanSetRef(s, t)
    ensures Abs(DoSetRef(s, t)) == Abs(s)
  {
    hide Inv, Touch, Shape, Workers, Mine, OpOk, SubOk;
    Prepare(s, t);
    InFlight(s, t);
    UnownedUnseen(s, s.threads[t].sub.pg);
    StepSetRef(s, t);
    Stutter(s, DoSetRef(s, t), t);
  }

  lemma SeeCopyPage(s: State, t: Asid)
    requires Inv(s) && CanCopyPage(s, t)
    ensures Abs(DoCopyPage(s, t)) == Abs(s)
  {
    hide Inv, Touch, Shape, Workers, Mine, OpOk, SubOk, Unseen;
    Prepare(s, t);
    HeldUnseen(s, t);
    StepCopyPage(s, t);
    Stutter(s, DoCopyPage(s, t), t);
  }

  lemma SeeForkProtect(s: State, t: Asid)
    requires Inv(s) && CanForkProtect(s, t)
    ensures Abs(DoForkProtect(s, t)) == Abs(s)
  {
    hide Inv, Touch, Shape, Workers, Mine, OpOk, SubOk;
    Prepare(s, t);
    ForkPageExists(s, t);
    StepForkProtect(s, t);
    Stutter(s, DoForkProtect(s, t), t);
  }

  lemma SeeForkMap(s: State, t: Asid)
    requires Inv(s) && CanForkMap(s, t)
    ensures Abs(DoForkMap(s, t)) == Abs(s)
  {
    hide Inv, Touch, Shape, Workers, Mine, OpOk, SubOk;
    Prepare(s, t);
    ForkSlotFree(s, t);
    ChildElsewhere(s, t);
    StepForkMap(s, t);
    Stutter(s, DoForkMap(s, t), t);
  }

  lemma ChildElsewhere(s: State, t: Asid)
    requires Mine(s, t) && s.threads[t].op.Fork?
    ensures s.threads[t].op.child != t
  {
    assert Target(s.threads[t].op) == Some(s.threads[t].op.child);
  }

  // t's view is cut to n pages.
  lemma Shrunk(s: State, s': State, t: Asid, n: nat)
    requires Shape(s) && Workers(s) && Touch(s, s', t) && Shape(s') && s'.mem.Keys == s.mem.Keys
    requires forall q :: q in s.mem && s'.mem[q] != s.mem[q] ==> Unseen(s, t, q)
    requires t in s'.threads && t in s'.sz && Vis(s'.threads[t].op, s'.sz[t]) == n <= Vis(s.threads[t].op, s.sz[t])
    requires forall v: nat :: v < n ==> PageAt(s', Slot(t, v)) == PageAt(s, Slot(t, v))
    ensures AEnabled(Abs(s), AShrink(t, n)) && Abs(s') == ADo(Abs(s), AShrink(t, n))
  {
    OneView(s, s', t);
    hide Shape, Workers, Touch, PageAt, Vis, Abs;
    assert View(s', t) == map v | v in View(s, t) && v < n :: View(s, t)[v];
  }

  lemma SeePopFail(s: State, t: Asid)
    requires Inv(s) && CanPopFail(s, t) && !(s.threads[t].op.CowNeed? && s.threads[t].op.out.None?)
    requires !s.threads[t].op.Grow?
    ensures Abs(DoPopFail(s, t)) == Abs(s)
  {
    hide Inv, Touch, Shape, Workers, Mine, OpOk, SubOk;
    Prepare(s, t);
    SizeOf(s, t);
    StepPopFail(s, t);
    Stutter(s, DoPopFail(s, t), t);
  }

  lemma SeeGrowFail(s: State, t: Asid)
    requires Inv(s) && CanPopFail(s, t) && s.threads[t].op.Grow?
    ensures AEnabled(Abs(s), AShrink(t, s.sz[t])) && Abs(DoPopFail(s, t)) == ADo(Abs(s), AShrink(t, s.sz[t]))
  {
    hide Inv, Touch, Shape, Workers, Mine, OpOk, SubOk;
    Prepare(s, t);
    GrowAbove(s, t);
    SizeOf(s, t);
    StepPopFail(s, t);
    Shrunk(s, DoPopFail(s, t), t, s.sz[t]);
  }

  lemma GrowAbove(s: State, t: Asid)
    requires Mine(s, t) && (s.threads[t].op.Grow? || s.threads[t].op.GrowDrop?)
    ensures s.sz[t] <= s.threads[t].op.a
  {
  }

  lemma SeeShrinkStart(s: State, t: Asid, n: nat)
    requires Inv(s) && CanShrinkStart(s, t, n)
    ensures AEnabled(Abs(s), AShrink(t, Pages(n)))
    ensures Abs(DoShrinkStart(s, t, n)) == ADo(Abs(s), AShrink(t, Pages(n)))
  {
    hide Inv, Touch, Shape, Workers, Mine, OpOk, SubOk;
    Prepare(s, t);
    SizeOf(s, t);
    PagesMonotone(n, s.bytes[t]);
    StepShrinkStart(s, t, n);
    Shrunk(s, DoShrinkStart(s, t, n), t, Pages(n));
  }

  // ----- kfree and unmapping -----

  lemma SeeFreeDec(s: State, t: Asid)
    requires Inv(s) && CanFreeDec(s, t)
    ensures Abs(DoFreeDec(s, t)) == Abs(s)
  {
    hide Inv, Touch, Shape, Workers, Mine, OpOk, SubOk;
    Prepare(s, t);
    CheckedPositive(s, t);
    StepFreeDec(s, t);
    Stutter(s, DoFreeDec(s, t), t);
  }

  // The junk kfree writes is seen by no one, although PTEs may still point to it.
  lemma SeeFreePush(s: State, t: Asid)
    requires Inv(s) && CanFreePush(s, t)
    ensures Abs(DoFreePush(s, t)) == Abs(s)
  {
    hide Inv, Touch, Shape, Workers, Mine, OpOk, SubOk;
    Prepare(s, t);
    InFlight(s, t);
    UnownedUnseen(s, s.threads[t].sub.pg);
    StepFreePush(s, t);
    Stutter(s, DoFreePush(s, t), t);
  }

  lemma MappedInMem(s: State, sl: Slot)
    requires Inv(s) && sl in s.pt
    ensures s.pt[sl].pa in s.mem && s.pt[sl].pa in s.ref
  {
    hide Workers, Spans, Ops, Ownership;
  }

  // The PTE catches up with the private copy: same bytes, same permissions.
  lemma SeeRemap(s: State, t: Asid)
    requires Inv(s) && CanFreeDone(s, t) && s.threads[t].op.CowCopied?
    ensures Abs(DoFreeDone(s, t)) == Abs(s)
  {
    hide Inv, Touch, Shape, Workers, Mine;
    Prepare(s, t);
    HeldFacts(s, t);
    StepRemap(s, t);
    Stutter(s, DoFreeDone(s, t), t);
  }

  // uvmunmap removes pages outside what the process sees.
  lemma SeeUnmap(s: State, t: Asid)
    requires Inv(s) && CanFreeDone(s, t) && s.threads[t].op.Unmap?
    ensures Abs(DoFreeDone(s, t)) == Abs(s)
  {
    hide Inv, Touch, Shape, Workers, SubOk;
    Prepare(s, t);
    OutsideView(s, t);
    hide Mine, OpOk;
    StepUnmap(s, t);
    Stutter(s, DoFreeDone(s, t), t);
  }

  lemma OutsideView(s: State, t: Asid)
    requires Mine(s, t) && s.threads[t].op.Unmap?
    ensures s.threads[t].op.sp == t ==> Vis(s.threads[t].op, s.sz[t]) <= s.threads[t].op.j
  {
    if s.threads[t].op.fin.Delete? {
      assert Target(s.threads[t].op) == Some(s.threads[t].op.sp);
    }
  }

  lemma SeeFreeDone(s: State, t: Asid)
    requires Inv(s) && CanFreeDone(s, t) && !s.threads[t].op.GrowDrop?
    ensures Abs(DoFreeDone(s, t)) == Abs(s)
  {
    hide Inv, Abs;
    AfterKfree(s, t);
    if s.threads[t].op.CowCopied? { SeeRemap(s, t); } else { SeeUnmap(s, t); }
  }

  lemma SeeGrowUndo(s: State, t: Asid)
    requires Inv(s) && CanFreeDone(s, t) && s.threads[t].op.GrowDrop?
    ensures AEnabled(Abs(s), AShrink(t, s.sz[t])) && Abs(DoFreeDone(s, t)) == ADo(Abs(s), AShrink(t, s.sz[t]))
  {
    hide Inv, Touch, Workers, Mine, Shape, OpOk, SubOk;
    Prepare(s, t);
    GrowAbove(s, t);
    SizeOf(s, t);
    StepGrowUndo(s, t);
    Shrunk(s, DoFreeDone(s, t), t, s.sz[t]);
  }

  lemma SeeUnmapDone(s: State, t: Asid)
    requires Inv(s) && CanUnmapDone(s, t)
    ensures Abs(DoUnmapDone(s, t)) == Abs(s)
  {
    hide Inv, Touch, Shape, Workers, SubOk;
    Prepare(s, t);
    if s.threads[t].op.fin.Delete? { DeleteElsewhere(s, t); }
    hide Mine, OpOk;
    StepUnmapDone(s, t);
    Stutter(s, DoUnmapDone(s, t), t);
  }

  lemma DeleteElsewhere(s: State, t: Asid)
    requires Mine(s, t) && s.threads[t].op.Unmap? && s.threads[t].op.fin.Delete?
    ensures s.threads[t].op.sp != t
  {
    assert Target(s.threads[t].op) == Some(s.threads[t].op.sp);
  }

  // ----- steps every kernel makes visible -----

  lemma SeeGrowMap(s: State, t: Asid)
    requires Inv(s) && CanGrowMap(s, t)
    ensures var e := AMap(t, s.threads[t].op.a, s.threads[t].op.perm);
      AEnabled(Abs(s), e) && Abs(DoGrowMap(s, t)) == ADo(Abs(s), e)
  {
    hide Inv, Touch, Shape, Workers, Mine, OpOk, SubOk;
    var s', op := DoGrowMap(s, t), s.threads[t].op;
    Prepare(s, t);
    GrowSlotFree(s, t);
    HeldUnseen(s, t);
    StepGrowMap(s, t);
    OneView(s, s', t);
    hide Abs, Unseen;
    GrowView(s, t);
    hide View, Back;
    assert op.a !in Abs(s)[t];
  }

  // The new page is the last one t sees.
  lemma GrowView(s: State, t: Asid)
    requires Inv(s) && CanGrowMap(s, t) && Slot(t, s.threads[t].op.a) !in s.pt
    ensures s.threads[t].op.a !in View(s, t) && t in DoGrowMap(s, t).sz
    ensures View(DoGrowMap(s, t), t) == View(s, t)[s.threads[t].op.a := APage(s.threads[t].op.perm, Fill(0))]
  {
    hide Inv;
    var s', op := DoGrowMap(s, t), s.threads[t].op;
    HeldUnseen(s, t);
    hide Unseen, Held;
    forall v: nat | v < op.a ensures PageAt(s', Slot(t, v)) == PageAt(s, Slot(t, v)) {
    }
  }

  lemma IdleBelow(s: State, t: Asid, v: nat)
    requires Mine(s, t) && s.threads[t].op.Idle? && Slot(t, v) in s.pt
    ensures v < s.sz[t]
  {
    assert OwnPage(Idle, s.sz[t], v);
  }

  lemma SeeClearUser(s: State, t: Asid, v: nat)
    requires Inv(s) && CanClearUser(s, t, v)
    ensures AEnabled(Abs(s), AClear(t, v)) && Abs(DoClearUser(s, t, v)) == ADo(Abs(s), AClear(t, v))
  {
    hide Inv, Touch, Shape, Workers, OpOk, SubOk, Mine;
    var s' := DoClearUser(s, t, v);
    Prepare(s, t);
    IdleBelow(s, t, v);
    MappedInMem(s, Slot(t, v));
    StepClearUser(s, t, v);
    OneView(s, s', t);
    hide Abs;
    assert View(s', t) == View(s, t)[v := APage(View(s, t)[v].perm.(u := false), View(s, t)[v].data)];
  }

  lemma SeeDie(s: State, t: Asid)
    requires Inv(s) && Calm(s, t)
    ensures AEnabled(Abs(s), AExit(t)) && Abs(Die(s, t)) == ADo(Abs(s), AExit(t))
  {
    hide Inv;
    var s' := Die(s, t);
    assert forall p :: p in s'.threads && p in s'.sz ==> View(s', p) == View(s, p);
  }

  lemma SeeReap(s: State, t: Asid, z: Asid)
    requires Inv(s) && CanReap(s, t, z)
    ensures Abs(DoReap(s, t, z)) == Abs(s)
  {
    hide Inv;
    var s' := DoReap(s, t, z);
    assert forall p :: p in s'.threads && p in s'.sz ==> View(s', p) == View(s, p);
  }

  // At the end of fork the child sees exactly what the parent sees.
  lemma SeeForkDone(s: State, t: Asid)
    requires Inv(s) && CanForkDone(s, t)
    ensures var e := AFork(t, s.threads[t].op.child);
      AEnabled(Abs(s), e) && Abs(DoForkDone(s, t)) == ADo(Abs(s), e)
  {
    hide Inv, View;
    var c, s' := s.threads[t].op.child, DoForkDone(s, t);
    NewChild(s, t);
    forall p | p in s.threads && p in s.sz ensures View(s', p) == View(s, p) {
      ForkSame(s, t, p);
    }
    ForkCopy(s, t);
  }

  lemma ForkSame(s: State, t: Asid, p: Asid)
    requires Inv(s) && CanForkDone(s, t) && p in s.threads && p in s.sz
    ensures p in DoForkDone(s, t).threads && p in DoForkDone(s, t).sz && View(DoForkDone(s, t), p) == View(s, p)
  {
    hide Inv;
    var s' := DoForkDone(s, t);
    NewChild(s, t);
    forall v: nat ensures PageAt(s', Slot(p, v)) == PageAt(s, Slot(p, v)) {
    }
    hide PageAt;
  }

  lemma ForkCopy(s: State, t: Asid)
    requires Inv(s) && CanForkDone(s, t)
    ensures var c, s' := s.threads[t].op.child, DoForkDone(s, t);
      c in s'.threads && c in s'.sz && View(s', c) == View(s, t)
  {
    hide Inv;
    var c, s' := s.threads[t].op.child, DoForkDone(s, t);
    forall v: nat | v < s.sz[t] ensures PageAt(s', Slot(c, v)) == PageAt(s, Slot(t, v)) {
      ChildPage(s, t, v);
    }
    hide PageAt;
  }

  lemma ChildPage(s: State, t: Asid, v: nat)
    requires Inv(s) && CanForkDone(s, t) && v < s.sz[t]
    ensures var c := s.threads[t].op.child;
      Slot(c, v) in s.pt && Slot(t, v) in s.pt && s.pt[Slot(c, v)] == s.pt[Slot(t, v)]
  {
    hide Ownership;
    var op := s.threads[t].op;
    assert OpOk(s, t, op) && Target(op) == Some(op.child) && TargetPage(op, v);
  }

  // ----- writes -----

  // A writable page is seen by no other process.
  lemma WritableUnseen(s: State, t: Asid, v: nat)
    requires Inv(s) && Calm(s, t) && !s.threads[t].op.Fork? && !s.threads[t].op.CowCopied?
    requires Slot(t, v) in s.pt && s.pt[Slot(t, v)].perm.w
    ensures Unseen(s, t, s.pt[Slot(t, v)].pa)
    ensures t in s.sz && forall u: nat :: u < Vis(s.threads[t].op, s.sz[t]) && Slot(t, u) in s.pt && u != v ==>
      Back(s, Slot(t, u)) != s.pt[Slot(t, v)].pa
  {
    hide Inv, Back, Vis;
    forall p, u: nat | p in s.threads && p in s.sz && u < Vis(s.threads[p].op, s.sz[p]) && Slot(p, u) in s.pt
      ensures Slot(p, u) != Slot(t, v) ==> Back(s, Slot(p, u)) != s.pt[Slot(t, v)].pa
    {
      WritableNotBack(s, t, v, p, u);
    }
  }

  lemma WritableNotBack(s: State, t: Asid, v: nat, p: Asid, u: nat)
    requires Inv(s) && Calm(s, t) && !s.threads[t].op.Fork? && !s.threads[t].op.CowCopied?
    requires Slot(t, v) in s.pt && s.pt[Slot(t, v)].perm.w
    requires p in s.threads && p in s.sz && u < Vis(s.threads[p].op, s.sz[p]) && Slot(p, u) in s.pt
    ensures Slot(p, u) != Slot(t, v) ==> Back(s, Slot(p, u)) != s.pt[Slot(t, v)].pa
  {
    hide Shape, Workers, Spans, Ops, Exact, Lists, Private, Sizes, Stale;
    var q := s.pt[Slot(t, v)].pa;
    BackOwned(s, p, u);
    OwnSlot(s, t, v);
    MappedInMem(s, Slot(t, v));
    hide Excluded;
    assert Slot(t, v) in PteOwners(s, q);
    StaleUncounted(s, Slot(t, v));
    StaleUncounted(s, Slot(p, u));
    if Back(s, Slot(p, u)) == q {
      if p in Holders(s, q) {
        HeldFacts(s, p);
        LoneHolder(s, p, q);
      }
    }
  }

  lemma SeeStore(s: State, t: Asid, v: nat, off: nat, b: int)
    requires Inv(s) && CanStore(s, t, v, off)
    ensures AEnabled(Abs(s), AStore(t, v, off, b)) && Abs(DoStore(s, t, v, off, b)) == ADo(Abs(s), AStore(t, v, off, b))
  {
    hide Inv, Touch, Shape, Workers, Mine, OpOk, SubOk;
    var s' := DoStore(s, t, v, off, b);
    Prepare(s, t);
    WritableUnseen(s, t, v);
    IdleBelow(s, t, v);
    StepStore(s, t, v, off, b);
    OneView(s, s', t);
    hide Abs, Unseen;
    assert View(s', t) == View(s, t)[v := APage(View(s, t)[v].perm, View(s, t)[v].data[off := b])];
  }
}
