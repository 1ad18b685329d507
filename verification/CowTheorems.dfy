/**
  The main results on copy-on-write memory.
 */
module CowTheorems {
  import opened Optional
  import opened CowModel
  import opened CowInvariant
  import opened CowStruct
  import opened CowOwners
  import opened CowOwnership
  import opened CowTransfer
  import opened CowSafety
  import opened CowRefinement

  // ----- copyout, exactly -----

  // Another visible page is backed by the same physical page as page v of t.
  ghost predicate SeenElsewhere(s: State, t: Asid, v: nat)
    requires Slot(t, v) in s.pt
  {
    exists p, u: nat :: IsSeen(s, p, u) && Slot(p, u) != Slot(t, v) && Back(s, Slot(p, u)) == s.pt[Slot(t, v)].pa
  }

  predicate IsSeen(s: State, p: Asid, u: nat)
  {
    p in s.threads && p in s.sz && u < Vis(s.threads[p].op, s.sz[p]) && Slot(p, u) in s.pt
  }

  lemma CopyoutOwn(s: State, t: Asid)
    requires Inv(s) && CanCopyoutBytes(s, t)
    ensures var op := s.threads[t].op;
      && IsSeen(s, t, op.v) && AEnabled(Abs(s), ACopyout(t, op.v, op.f))
      && s.pt[Slot(t, op.v)].pa in s.mem && Abs(s)[t] == View(s, t)
      && View(s, t)[op.v].data == s.mem[s.pt[Slot(t, op.v)].pa]
  {
    hide Inv, Shape, Mine, Workers, SubOk;
    Prepare(s, t);
    HeldFacts(s, t);
    MappedInMem(s, Slot(t, s.threads[t].op.v));
  }

  // The write shows through every visible mapping of the page, and nowhere else.
  lemma CopyoutShows(s: State, t: Asid, p: Asid, u: nat)
    requires Inv(s) && CanCopyoutBytes(s, t) && IsSeen(s, p, u)
    ensures var pa, was := s.pt[Slot(t, s.threads[t].op.v)].pa, PageAt(s, Slot(p, u));
      PageAt(DoCopyoutBytes(s, t), Slot(p, u)) ==
        if Back(s, Slot(p, u)) == pa then APage(was.perm, Splice(s.mem[pa], s.threads[t].op.f)) else was
  {
    hide Inv;
    BackInMem(s, p, u);
    MappedInMem(s, Slot(t, s.threads[t].op.v));
  }

  lemma BackInMem(s: State, p: Asid, u: nat)
    requires Inv(s) && IsSeen(s, p, u)
    ensures Back(s, Slot(p, u)) in s.mem
  {
    hide Workers, Spans, Ops, Ownership, Back, Vis;
    BackOwned(s, p, u);
  }

  lemma AllSeen(s: State, p: Asid, u: nat)
    requires Inv(s) && p in s.threads && p in s.sz && u < Vis(s.threads[p].op, s.sz[p])
    ensures Slot(p, u) in s.pt
  {
    hide Ownership, Workers;
    assert OpOk(s, p, s.threads[p].op);
    assert OwnPage(s.threads[p].op, s.sz[p], u);
  }

  // copyout tests PTE_V and PTE_U but not PTE_W: it behaves as on a private copy
  // exactly when nothing else shows the page, or the bytes were already there.
  lemma CopyoutExact(s: State, t: Asid)
    requires Inv(s) && CanCopyoutBytes(s, t)
    ensures var op := s.threads[t].op; var e, pa := ACopyout(t, op.v, op.f), s.pt[Slot(t, op.v)].pa;
      && AEnabled(Abs(s), e)
      && (Abs(DoCopyoutBytes(s, t)) == ADo(Abs(s), e) <==>
            !SeenElsewhere(s, t, op.v) || Splice(s.mem[pa], op.f) == s.mem[pa])
  {
    hide Inv;
    var op, s' := s.threads[t].op, DoCopyoutBytes(s, t);
    var pa, e := s.pt[Slot(t, op.v)].pa, ACopyout(t, op.v, op.f);
    CopyoutOwn(s, t);
    if SeenElsewhere(s, t, op.v) && Splice(s.mem[pa], op.f) != s.mem[pa] {
      var p, u: nat :| IsSeen(s, p, u) && Slot(p, u) != Slot(t, op.v) && Back(s, Slot(p, u)) == pa;
      CopyoutShows(s, t, p, u);
      BackInMem(s, p, u);
      assert View(s, p)[u] == PageAt(s, Slot(p, u)) && View(s', p)[u] == PageAt(s', Slot(p, u));
      assert ADo(Abs(s), e)[p][u].data == s.mem[pa];
      assert Abs(s')[p][u].data != s.mem[pa];
    } else {
      CopyoutMatches(s, t);
    }
  }

  lemma CopyoutMatches(s: State, t: Asid)
    requires Inv(s) && CanCopyoutBytes(s, t) && AEnabled(Abs(s), ACopyout(t, s.threads[t].op.v, s.threads[t].op.f))
    requires var op := s.threads[t].op; var pa := s.pt[Slot(t, op.v)].pa;
      !SeenElsewhere(s, t, op.v) || Splice(s.mem[pa], op.f) == s.mem[pa]
    ensures Abs(DoCopyoutBytes(s, t)) == ADo(Abs(s), ACopyout(t, s.threads[t].op.v, s.threads[t].op.f))
  {
    hide Inv, View, SeenElsewhere;
    var op, s' := s.threads[t].op, DoCopyoutBytes(s, t);
    var want := ADo(Abs(s), ACopyout(t, op.v, op.f));
    forall p | p in Abs(s) ensures p in want && Abs(s')[p] == want[p] {
      CopyoutView(s, t, p, s', want);
    }
    assert Abs(s').Keys == Abs(s).Keys == want.Keys;
  }

  lemma CopyoutView(s: State, t: Asid, p: Asid, s': State, want: AState)
    requires Inv(s) && CanCopyoutBytes(s, t) && p in Abs(s) && s' == DoCopyoutBytes(s, t)
    requires AEnabled(Abs(s), ACopyout(t, s.threads[t].op.v, s.threads[t].op.f))
    requires want == ADo(Abs(s), ACopyout(t, s.threads[t].op.v, s.threads[t].op.f))
    requires !SeenElsewhere(s, t, s.threads[t].op.v) || PageAt(s', Slot(t, s.threads[t].op.v)).data ==
      PageAt(s, Slot(t, s.threads[t].op.v)).data
    ensures p in Abs(s') && p in want && Abs(s')[p] == want[p]
  {
    hide Inv;
    var op := s.threads[t].op;
    CopyoutOwn(s, t);
    assert Vis(s'.threads[p].op, s'.sz[p]) == Vis(s.threads[p].op, s.sz[p]);
    assert want[p].Keys == View(s, p).Keys == View(s', p).Keys;
    forall u: nat | u in View(s, p) ensures View(s', p)[u] == want[p][u] {
      AllSeen(s, p, u);
      assert IsSeen(s, p, u);
      CopyoutShows(s, t, p, u);
      BackInMem(s, p, u);
      assert View(s', p)[u] == PageAt(s', Slot(p, u));
    }
  }

  // A destination that had PTE_W or PTE_COW is safe.
  lemma CopyoutGuarded(s: State, t: Asid)
    requires Inv(s) && CanCopyoutBytes(s, t) && s.threads[t].op.rw
    ensures !SeenElsewhere(s, t, s.threads[t].op.v)
  {
    hide Inv, SubOk;
    var op := s.threads[t].op;
    HeldFacts(s, t);
    WritableUnseen(s, t, op.v);
    forall p, u: nat | IsSeen(s, p, u) && Slot(p, u) != Slot(t, op.v)
      ensures Back(s, Slot(p, u)) != s.pt[Slot(t, op.v)].pa
    {
    }
  }

  // ----- every step, every run -----

  // The one restriction: copyout goes to pages that had PTE_W or PTE_COW.
  predicate Guarded(s: State, t: Asid, e: Event)
    requires Enabled(s, t, e)
  {
    e.CopyoutBytes? ==> s.threads[t].op.rw
  }

  lemma StepRefines(s: State, t: Asid, e: Event)
    requires Inv(s) && Enabled(s, t, e) && Guarded(s, t, e)
    ensures AEnabled(Abs(s), AEventOf(s, t, e)) && Abs(Do(s, t, e)) == ADo(Abs(s), AEventOf(s, t, e))
  {
    hide Inv, Abs, AEnabled;
    match e
    case Store(v, off, b) => SeeStore(s, t, v, off, b);
    case CopyoutBytes => CopyoutGuarded(s, t); CopyoutExact(s, t);
    case PopFail =>
      if s.threads[t].op.CowNeed? && s.threads[t].op.out.None? { SeeDie(s, t); }
      else if s.threads[t].op.Grow? { SeeGrowFail(s, t); }
      else { SeePopFail(s, t); SeeStutter(s); }
    case FreeDone =>
      if s.threads[t].op.GrowDrop? { SeeGrowUndo(s, t); } else { SeeFreeDone(s, t); SeeStutter(s); }
    case ForkDone => SeeForkDone(s, t);
    case GrowMap => SeeGrowMap(s, t);
    case ShrinkStart(n) => SeeShrinkStart(s, t, n);
    case ClearUser(v) => SeeClearUser(s, t, v);
    case Exit => SeeDie(s, t);
    case _ => StepUnseen(s, t, e); SeeStutter(s);
  }

  lemma SeeStutter(s: State)
    ensures AEnabled(Abs(s), AStutter) && ADo(Abs(s), AStutter) == Abs(s)
  {
  }

  lemma StepUnseen(s: State, t: Asid, e: Event)
    requires Inv(s) && Enabled(s, t, e) && AEventOf(s, t, e).AStutter? && !e.PopFail? && !e.FreeDone?
    ensures Abs(Do(s, t, e)) == Abs(s)
  {
    hide Inv, Abs;
    match e
    case Fault(v, off) => SeeFault(s, t, v, off);
    case TakeSole => SeeTakeSole(s, t);
    case CopyoutStart(v, f) => SeeCopyoutStart(s, t, v, f);
    case Pop(dest) => SeePop(s, t, dest);
    case SetRef => SeeSetRef(s, t);
    case CopyPage => SeeCopyPage(s, t);
    case KernFree(pg) => SeeKernFree(s, t, pg);
    case FreeCheck => SeeFreeCheck(s, t);
    case FreeDec => SeeFreeDec(s, t);
    case FreePush => SeeFreePush(s, t);
    case UnmapDone => SeeUnmapDone(s, t);
    case ForkStart(child) => SeeForkStart(s, t, child);
    case ForkProtect => SeeForkProtect(s, t);
    case ForkMap => SeeForkMap(s, t);
    case ForkInc => SeeForkInc(s, t);
    case GrowStart(target, perm) => SeeGrowStart(s, t, target, perm);
    case GrowDone => SeeGrowDone(s, t);
    case Reap(z) => SeeReap(s, t, z);
  }

  // The machine after kinit and userinit: all pages free, one process with no memory.
  ghost predicate Boot(s: State)
  {
    && !s.stuck && s.pt == map[] && s.kern == {} && s.zombies == {}
    && (exists p :: s.threads == map[p := Thread(Idle, NoSub)] && s.sz == map[p := 0] && s.bytes == map[p := 0])
    && s.ref.Keys == s.mem.Keys && (forall pg :: pg in s.ref ==>
          s.ref[pg] == 0 && pg in s.free && |s.mem[pg]| == PGSIZE)
    && (forall i :: 0 <= i < |s.free| ==> s.free[i] in s.ref)
    && (forall i, j :: 0 <= i < j < |s.free| ==> s.free[i] != s.free[j])
  }

  lemma BootInv(s: State)
    requires Boot(s)
    ensures Inv(s)
  {
    BootStruct(s);
    BootOwnership(s);
  }

  lemma BootStruct(s: State)
    requires Boot(s)
    ensures Struct(s)
  {
    hide OpOk, SubOk;
    BootOps(s);
  }

  lemma BootOps(s: State)
    requires Boot(s)
    ensures Ops(s)
  {
  }

  lemma BootOwnership(s: State)
    requires Boot(s)
    ensures Ownership(s)
  {
    hide Excluded;
    assert forall pg: Page :: PteOwners(s, pg) == {} && Holders(s, pg) == {};
  }

  // A run: who steps, and how.
  datatype Move = Move(t: Asid, e: Event)

  ghost predicate IsRun(run: seq<State>, moves: seq<Move>)
  {
    && |run| == |moves| + 1
    && (forall i :: 0 <= i < |moves| ==>
          Enabled(run[i], moves[i].t, moves[i].e) && run[i + 1] == Do(run[i], moves[i].t, moves[i].e))
  }

  // In every state of every run, under every interleaving, the counts are exact, free
  // pages are distinct and unowned, writable pages are unshared, and nothing has panicked.
  lemma {:induction false} RunSafe(run: seq<State>, moves: seq<Move>, k: nat)
    requires IsRun(run, moves) && Boot(run[0]) && k < |run|
    ensures Inv(run[k])
  {
    hide Inv, Boot, Enabled, Do;
    if k == 0 {
      BootInv(run[0]);
    } else {
      RunSafe(run, moves, k - 1);
      StepKeeps(run[k - 1], moves[k - 1].t, moves[k - 1].e);
    }
  }

  // reference_counter is the number of owners: user PTEs, the kernel, and pages held in mid-operation.
  lemma CountsAreOwners(run: seq<State>, moves: seq<Move>, k: nat, pg: Page)
    requires IsRun(run, moves) && Boot(run[0]) && k < |run| && pg in run[k].ref
    ensures var s := run[k];
      s.ref[pg] == |PteOwners(s, pg)| + |Holders(s, pg)| + (if pg in s.kern then 1 else 0) && (pg in s.free ==>
        s.ref[pg] == 0) && !s.stuck
    ensures forall i, j :: 0 <= i < j < |run[k].free| ==> run[k].free[i] != run[k].free[j]
  {
    hide Boot, Struct, Private, Sharing, IsRun;
    RunSafe(run, moves, k);
  }

  // A writable PTE outside the window of its own removal is its page's only owner, and any other PTE
  // that still points to the page is one kfree has already let go of.
  lemma WritableIsSole(run: seq<State>, moves: seq<Move>, k: nat, x: Slot)
    requires IsRun(run, moves) && Boot(run[0]) && k < |run| && x in run[k].pt && run[k].pt[x].perm.w
    requires !Excluded(run[k], x)
    ensures run[k].pt[x].pa in run[k].ref && run[k].ref[run[k].pt[x].pa] == 1
    ensures forall y :: y in run[k].pt && y != x && !Stale(run[k], y) ==> run[k].pt[y].pa != run[k].pt[x].pa
  {
    hide Boot, IsRun, Inv, Excluded;
    RunSafe(run, moves, k);
    SoleWritable(run[k], x);
  }

  lemma SoleWritable(s: State, x: Slot)
    requires Inv(s) && x in s.pt && s.pt[x].perm.w && !Excluded(s, x)
    ensures s.pt[x].pa in s.ref && s.ref[s.pt[x].pa] == 1
    ensures forall y :: y in s.pt && y != x && !Stale(s, y) ==> s.pt[y].pa != s.pt[x].pa
  {
    hide Excluded, Stale, Workers, Spans, Ops, OpOk;
    var pg := s.pt[x].pa;
    CountedPositive(s, x);
    StaleUncounted(s, x);
    forall y | y in PteOwners(s, pg) ensures y == x {
      StaleUncounted(s, y);
    }
    assert PteOwners(s, pg) == {x};
    if t :| t in Holders(s, pg) {
      LoneHolder(s, t, pg);
    }
    if pg in s.kern {
      LoneKernel(s, pg);
    }
    assert s.ref[pg] == OwnerCount(s, pg);
  }

  // A page is not freed, nor on its way to the free list, while a handler copies from it.
  lemma CopySourceAlive(run: seq<State>, moves: seq<Move>, k: nat, t: Asid)
    requires IsRun(run, moves) && Boot(run[0]) && k < |run| && t in run[k].threads && run[k].threads[t].op.CowHave?
    ensures var s := run[k]; var sl := Slot(t, s.threads[t].op.v);
      && sl in s.pt && s.pt[sl].pa in s.ref && s.ref[s.pt[sl].pa] >= 1 && s.pt[sl].pa !in s.free
      && forall t' :: t' in s.threads ==> Flight(s.threads[t']) != Some(s.pt[sl].pa)
  {
    hide Boot, IsRun, Excluded, Spans, Private, Sharing, Lists;
    RunSafe(run, moves, k);
    var s := run[k];
    var v := s.threads[t].op.v;
    HeldFacts(s, t);
    OwnSlot(s, t, v);
    CountedPositive(s, Slot(t, v));
    Positive(s, s.pt[Slot(t, v)].pa);
  }

  // Copy-on-write fork refines eager-copy fork over every run.
  lemma CowRefinesEager(run: seq<State>, moves: seq<Move>, k: nat)
    requires IsRun(run, moves) && Boot(run[0]) && k < |moves|
    requires Guarded(run[k], moves[k].t, moves[k].e)
    ensures var e := AEventOf(run[k], moves[k].t, moves[k].e);
      AEnabled(Abs(run[k]), e) && Abs(run[k + 1]) == ADo(Abs(run[k]), e)
  {
    hide Inv, Boot, Enabled, Do, Abs, AEnabled, ADo, Guarded, AEventOf;
    RunSafe(run, moves, k);
    StepRefines(run[k], moves[k].t, moves[k].e);
  }
}
