/**
  Every step of the copy-on-write machine keeps reference counts exact, free
  pages unowned and writable pages unshared.

  A step is described by what it does to one process: the lemmas here take the
  states before and after, name the process and the PTE that may change, and
  frame the rest.  Steps that change no owner come out of QuietStep; steps that
  only change memory out of MemStep.  The steps that move a page from one owner
  to another are in CowTransfer, and those of fork and growth in CowForkGrow.
 */
module CowOwnership {
  import opened Optional
  import opened CowModel
  import opened CowInvariant
  import opened CowStruct
  import opened CowOwners

  // ----- frames -----

  ghost predicate AtStep(s: State, s': State, t: Asid)
  {
    t in s.threads && t in s'.threads && s'.threads == s.threads[t := s'.threads[t]]
  }

  ghost predicate ExclOther(s: State, t: Asid, sl: Slot)
  {
    exists t' :: t' in s.threads && t' != t && Excl(t', s.threads[t'], sl)
  }

  lemma ExcludedAt(s: State, s': State, t: Asid)
    requires AtStep(s, s', t)
    ensures forall sl :: Excluded(s, sl) <==> Excl(t, s.threads[t], sl) || ExclOther(s, t, sl)
    ensures forall sl :: Excluded(s', sl) <==> Excl(t, s'.threads[t], sl) || ExclOther(s, t, sl)
  {
    forall sl ensures ExclOther(s, t, sl) ==> Excluded(s', sl) {
      if ExclOther(s, t, sl) {
        var t' :| t' in s.threads && t' != t && Excl(t', s.threads[t'], sl);
        assert t' in s'.threads && Excl(t', s'.threads[t'], sl);
      }
    }
  }

  // Which PTEs are stale changes only by a step into or out of Gone.
  lemma StaleAt(s: State, s': State, t: Asid)
    requires AtStep(s, s', t)
    ensures !s.threads[t].sub.Gone? ==> forall sl :: Stale(s, sl) ==> Stale(s', sl)
    ensures !s'.threads[t].sub.Gone? ==> forall sl :: Stale(s', sl) ==> Stale(s, sl)
    ensures forall sl :: !Drops(t, s.threads[t].op, sl) && Stale(s, sl) ==> Stale(s', sl)
  {
    forall sl | Stale(s, sl) && (!s.threads[t].sub.Gone? || !Drops(t, s.threads[t].op, sl)) ensures Stale(s', sl) {
      var t' :| t' in s.threads && s.threads[t'].sub.Gone? && Drops(t', s.threads[t'].op, sl);
      assert t' in s'.threads && s'.threads[t'] == s.threads[t'];
    }
    forall sl | Stale(s', sl) && !s'.threads[t].sub.Gone? ensures Stale(s, sl) {
      var t' :| t' in s'.threads && s'.threads[t'].sub.Gone? && Drops(t', s'.threads[t'].op, sl);
      assert t' in s.threads && s'.threads[t'] == s.threads[t'];
    }
  }

  // Fewer PTEs, or more stale ones.
  lemma SharingLess(s: State, s': State)
    requires Sharing(s)
    requires forall x :: x in s'.pt ==> x in s.pt && s'.pt[x] == s.pt[x] && (Stale(s, x) ==> Stale(s', x))
    ensures Sharing(s')
  {
  }

  // A PTE gets a page no other PTE maps, but for stale ones.
  lemma SharingFresh(s: State, s': State, sl: Slot)
    requires Sharing(s) && sl in s'.pt
    requires forall x :: x in s'.pt && x != sl ==>
      && x in s.pt && s'.pt[x] == s.pt[x] && (Stale(s, x) ==> Stale(s', x))
      && (!Stale(s, x) ==> s.pt[x].pa != s'.pt[sl].pa)
    ensures Sharing(s')
  {
  }

  ghost predicate Counted(s: State, sl: Slot)
  {
    sl in s.pt && !Excluded(s, sl)
  }

  // The counted PTEs other than sl are the same ones, on the same pages.
  ghost predicate SameBut(s: State, s': State, sl: Slot)
  {
    && (forall x :: x != sl ==> (Counted(s, x) <==> Counted(s', x)))
    && (forall x :: x != sl && Counted(s, x) && Counted(s', x) ==> s.pt[x].pa == s'.pt[x].pa)
  }

  function Bit(b: bool): nat { if b then 1 else 0 }

  lemma CardBut<T>(a: set<T>, b: set<T>, x: T)
    requires a - {x} == b - {x}
    ensures |b| == |a| - Bit(x in a) + Bit(x in b)
  {
    assert x in a ==> a == (a - {x}) + {x};
    assert x in b ==> b == (b - {x}) + {x};
    assert x !in a ==> a == a - {x};
    assert x !in b ==> b == b - {x};
  }

  // What the step of t, which may change the PTE sl, adds to the owners of pg.
  ghost function Delta(s: State, s': State, t: Asid, sl: Slot, pg: Page): int
    requires AtStep(s, s', t)
  {
    Bit(Counted(s', sl) && s'.pt[sl].pa == pg) - Bit(Counted(s, sl) && s.pt[sl].pa == pg)
    + Bit(Held(s'.threads[t]) == Some(pg)) - Bit(Held(s.threads[t]) == Some(pg))
    + Bit(pg in s'.kern) - Bit(pg in s.kern)
  }

  lemma CountBut(s: State, s': State, t: Asid, sl: Slot, pg: Page)
    requires AtStep(s, s', t) && SameBut(s, s', sl)
    ensures OwnerCount(s', pg) == OwnerCount(s, pg) + Delta(s, s', t, sl, pg)
  {
    forall x ensures x in PteOwners(s', pg) - {sl} <==> x in PteOwners(s, pg) - {sl} {
      assert x != sl ==> (Counted(s, x) <==> Counted(s', x));
    }
    CardBut(PteOwners(s, pg), PteOwners(s', pg), sl);
    assert sl in PteOwners(s, pg) <==> Counted(s, sl) && s.pt[sl].pa == pg;
    assert sl in PteOwners(s', pg) <==> Counted(s', sl) && s'.pt[sl].pa == pg;
    assert Holders(s', pg) - {t} == Holders(s, pg) - {t};
    CardBut(Holders(s, pg), Holders(s', pg), t);
  }

  lemma ExactBut(s: State, s': State, t: Asid, sl: Slot)
    requires Exact(s) && AtStep(s, s', t) && SameBut(s, s', sl) && s'.ref.Keys == s.ref.Keys
    requires forall pg :: pg in s'.ref ==> s'.ref[pg] == s.ref[pg] + Delta(s, s', t, sl, pg)
    ensures Exact(s')
  {
    hide OwnerCount, Delta, SameBut;
    forall pg | pg in s'.ref ensures s'.ref[pg] == OwnerCount(s', pg) { CountBut(s, s', t, sl, pg); }
  }

  lemma ListsSame(s: State, s': State, t: Asid)
    requires Lists(s) && AtStep(s, s', t) && s'.free == s.free && s'.ref == s.ref
    requires Flight(s'.threads[t]) == Flight(s.threads[t])
    ensures Lists(s')
  {
  }

  // One count changes, of a page that is neither free nor in flight elsewhere.
  lemma ListsRef(s: State, s': State, t: Asid, q: Page)
    requires Lists(s) && AtStep(s, s', t) && s'.free == s.free && q in s'.ref && s'.ref == s.ref[q := s'.ref[q]]
    requires q !in s.free && (forall t' :: t' in s.threads && t' != t ==> Flight(s.threads[t']) != Some(q))
    requires Flight(s'.threads[t]) == None || (Flight(s'.threads[t]) == Some(q) && s'.ref[q] == 0)
    ensures Lists(s')
  {
  }

  // No one but t relies on q having a count of one.
  ghost predicate NotPrivate(s: State, s': State, t: Asid, q: Page)
  {
    && q !in s'.kern
    && (forall t' :: t' in s.threads && t' != t ==>
          && Held(s.threads[t']) != Some(q)
          && (s.threads[t'].op.CowSole? && Slot(t', s.threads[t'].op.v) in s.pt ==>
                s.pt[Slot(t', s.threads[t'].op.v)].pa != q))
  }

  lemma SoleOthers(s: State, s': State, t: Asid, t': Asid)
    requires Shape(s) && Workers(s) && Touch(s, s', t) && t' in s.threads && t' != t && SoleOk(s, t', s.threads[t'].op)
    requires forall q :: q in s.ref && s.ref[q] == 1 && s'.ref[q] != 1 ==> NotPrivate(s, s', t, q)
    ensures SoleOk(s', t', s.threads[t'].op)
  {
    if s.threads[t'].op.CowSole? {
      assert SameSlot(s, s', Slot(t', s.threads[t'].op.v));
    }
  }

  lemma PrivateRef(s: State, s': State, t: Asid)
    requires Shape(s) && Workers(s) && Private(s) && Touch(s, s', t) && AtStep(s, s', t)
    requires forall q :: q in s'.kern && q in s'.ref ==> q in s.kern || s'.ref[q] == 1
    requires forall q :: q in s.ref && s.ref[q] == 1 && s'.ref[q] != 1 ==> NotPrivate(s, s', t, q)
    requires Held(s'.threads[t]).Some? && Held(s'.threads[t]).value in s'.ref ==> s'.ref[Held(s'.threads[t]).value] == 1
    requires SoleOk(s', t, s'.threads[t].op)
    ensures Private(s')
  {
    hide SoleOk;
    forall t' | t' in s'.threads ensures SoleOk(s', t', s'.threads[t'].op) {
      if t' != t {
        assert SoleOk(s, t', s.threads[t'].op);
        SoleOthers(s, s', t, t');
      }
    }
  }

  // ----- steps that change no owner -----

  lemma PrivateSame(s: State, s': State, t: Asid)
    requires Shape(s) && Workers(s) && Private(s) && Touch(s, s', t) && AtStep(s, s', t)
    requires s'.ref == s.ref && s'.kern == s.kern
    requires Held(s'.threads[t]) == Held(s.threads[t]) && SoleOk(s', t, s'.threads[t].op)
    ensures Private(s')
  {
    PrivateRef(s, s', t);
  }

  // Same owners, counts, lists and mapped pages; the control point of t moved.
  lemma QuietStep(s: State, s': State, t: Asid)
    requires Inv(s) && Touch(s, s', t) && AtStep(s, s', t)
    requires s'.ref == s.ref && s'.kern == s.kern && s'.free == s.free && s'.pt == s.pt
    requires Held(s'.threads[t]) == Held(s.threads[t]) && Flight(s'.threads[t]) == Flight(s.threads[t])
    requires forall sl :: Excl(t, s'.threads[t], sl) <==> Excl(t, s.threads[t], sl)
    requires !s.threads[t].sub.Gone? || s.threads[t].op.GrowDrop?
    requires SoleOk(s', t, s'.threads[t].op)
    ensures Ownership(s')
  {
    hide Shape, Workers, Spans, Ops, Exact, Lists, Private, Touch, SoleOk, Sharing, Stale;
    StaleAt(s, s', t);
    SharingLess(s, s');
    ExcludedAt(s, s', t);
    ExactBut(s, s', t, Slot(t, 0));
    ListsSame(s, s', t);
    PrivateSame(s, s', t);
  }

  // The contents of one page change.
  lemma MemStep(s: State, pa: Page, d: Data)
    requires Inv(s) && pa in s.mem
    ensures Ownership(s.(mem := s.mem[pa := d]))
  {
    hide Shape, Workers, Spans, Ops;
    var s' := s.(mem := s.mem[pa := d]);
    assert forall sl :: Excluded(s', sl) <==> Excluded(s, sl);
    assert forall sl :: Stale(s', sl) <==> Stale(s, sl);
    assert forall pg: Page :: PteOwners(s', pg) == PteOwners(s, pg) && Holders(s', pg) == Holders(s, pg);
    forall t | t in s.threads ensures SoleOk(s', t, s.threads[t].op) {
      assert SoleOk(s, t, s.threads[t].op);
    }
  }

  lemma MemKeeps(s: State, pa: Page, d: Data)
    requires Inv(s) && pa in s.mem && |d| == PGSIZE
    ensures Inv(s.(mem := s.mem[pa := d]))
  {
    hide Struct, Ownership;
    MemStep(s, pa, d);
    StructMem(s, pa, d);
  }

  // Every page has PGSIZE bytes.
  lemma MemLengths(s: State)
    requires Inv(s)
    ensures forall pg :: pg in s.mem ==> |s.mem[pg]| == PGSIZE
  {
    hide Workers, Spans, Ops, Ownership;
  }

  lemma OwnStore(s: State, t: Asid, v: nat, off: nat, b: int)
    requires Inv(s) && CanStore(s, t, v, off)
    ensures Inv(DoStore(s, t, v, off, b))
  {
    hide Inv;
    MemLengths(s);
    MemKeeps(s, s.pt[Slot(t, v)].pa, s.mem[s.pt[Slot(t, v)].pa][off := b]);
  }

  lemma OwnCopyoutBytes(s: State, t: Asid)
    requires Inv(s) && CanCopyoutBytes(s, t) && Touch(s, DoCopyoutBytes(s, t), t)
    ensures Ownership(DoCopyoutBytes(s, t))
  {
    hide Inv, Ownership, Touch;
    QuietStep(s, DoCopyoutBytes(s, t), t);
  }

  lemma OwnCopyPage(s: State, t: Asid)
    requires Inv(s) && CanCopyPage(s, t) && Touch(s, DoCopyPage(s, t), t)
    ensures Ownership(DoCopyPage(s, t))
  {
    hide Inv, Ownership, Touch;
    QuietStep(s, DoCopyPage(s, t), t);
  }

  lemma OwnFault(s: State, t: Asid, v: nat, off: nat)
    requires Inv(s) && CanFault(s, t, v, off) && s.ref[s.pt[Slot(t, v)].pa] >= 1 && Touch(s, DoFault(s, t, v, off), t)
    ensures Ownership(DoFault(s, t, v, off))
  {
    hide Inv, Ownership, Touch;
    QuietStep(s, DoFault(s, t, v, off), t);
  }

  lemma OwnCopyoutStart(s: State, t: Asid, v: nat, f: Write)
    requires Inv(s) && CanCopyoutStart(s, t, v, f) && s.ref[s.pt[Slot(t, v)].pa] >= 1
    requires Touch(s, DoCopyoutStart(s, t, v, f), t)
    ensures Ownership(DoCopyoutStart(s, t, v, f))
  {
    hide Inv, Ownership, Touch;
    QuietStep(s, DoCopyoutStart(s, t, v, f), t);
  }

  lemma OwnPopFail(s: State, t: Asid)
    requires Inv(s) && CanPopFail(s, t) && Touch(s, DoPopFail(s, t), t)
    requires s.threads[t].op.CowNeed? ==> s.threads[t].op.out.Some?
    ensures Ownership(DoPopFail(s, t))
  {
    hide Inv, Ownership, Touch;
    QuietStep(s, DoPopFail(s, t), t);
  }

  lemma OwnFreeCheck(s: State, t: Asid)
    requires Inv(s) && CanFreeCheck(s, t) && !DoFreeCheck(s, t).stuck && Touch(s, DoFreeCheck(s, t), t)
    ensures Ownership(DoFreeCheck(s, t))
  {
    hide Inv, Ownership, Touch;
    QuietStep(s, DoFreeCheck(s, t), t);
  }

  lemma OwnUnmapDone(s: State, t: Asid)
    requires Inv(s) && CanUnmapDone(s, t) && Touch(s, DoUnmapDone(s, t), t)
    ensures Ownership(DoUnmapDone(s, t))
  {
    hide Inv, Ownership, Touch;
    QuietStep(s, DoUnmapDone(s, t), t);
  }

  lemma OwnForkStart(s: State, t: Asid, child: Asid)
    requires Inv(s) && CanForkStart(s, t, child) && Touch(s, DoForkStart(s, t, child), t)
    ensures Ownership(DoForkStart(s, t, child))
  {
    hide Inv, Ownership, Touch;
    QuietStep(s, DoForkStart(s, t, child), t);
  }

  lemma OwnGrowStart(s: State, t: Asid, target: nat, perm: Perm)
    requires Inv(s) && CanGrowStart(s, t, target, perm) && Touch(s, DoGrowStart(s, t, target, perm), t)
    ensures Ownership(DoGrowStart(s, t, target, perm))
  {
    hide Inv, Ownership, Touch;
    QuietStep(s, DoGrowStart(s, t, target, perm), t);
  }

  lemma OwnGrowDone(s: State, t: Asid)
    requires Inv(s) && CanGrowDone(s, t) && Touch(s, DoGrowDone(s, t), t)
    ensures Ownership(DoGrowDone(s, t))
  {
    hide Inv, Ownership, Touch;
    QuietStep(s, DoGrowDone(s, t), t);
  }

  lemma OwnShrinkStart(s: State, t: Asid, n: nat)
    requires Inv(s) && CanShrinkStart(s, t, n) && Touch(s, DoShrinkStart(s, t, n), t)
    ensures Ownership(DoShrinkStart(s, t, n))
  {
    hide Inv, Ownership, Touch;
    QuietStep(s, DoShrinkStart(s, t, n), t);
  }
}
