/**
  The steps of the copy-on-write machine that move a page between owners keep
  reference counts exact.

  A page leaves the free list with a count of zero, gets its count when kalloc
  sets it, is held by the operation that asked for it, and becomes a PTE's.  On
  the way back kfree first lowers the count, and the PTE goes after kfree has
  returned, so between the two the PTE exists without being counted, and once
  the page is on the free list it may be someone else's.  Each lemma moves one
  owner by one place along this way.  The free list stays distinct because a
  page in flight belongs to one process only.
 */
module CowTransfer {
  import opened Optional
  import opened CowModel
  import opened CowInvariant
  import opened CowStruct
  import opened CowOwners
  import opened CowOwnership

  // ----- kalloc -----

  lemma ListsPop(s: State, s': State, t: Asid)
    requires Lists(s) && AtStep(s, s', t) && s.free != [] && s'.free == s.free[1..] && s'.ref == s.ref
    requires Flight(s'.threads[t]) == Some(s.free[0])
    ensures Lists(s')
  {
  }

  lemma OwnPop(s: State, t: Asid, dest: Dest)
    requires Inv(s) && CanPop(s, t, dest) && Touch(s, DoPop(s, t, dest), t)
    ensures Ownership(DoPop(s, t, dest))
  {
    hide Shape, Workers, Spans, Ops, Exact, Lists, Private, Touch, Sharing, Stale;
    var s' := DoPop(s, t, dest);
    ExcludedAt(s, s', t);
    ExactBut(s, s', t, Slot(t, 0));
    ListsPop(s, s', t);
    PrivateSame(s, s', t);
    StaleAt(s, s', t);
    SharingLess(s, s');
  }

  // What the invariant says of a page in flight at t.
  lemma InFlight(s: State, t: Asid)
    requires Inv(s) && t in s.threads && Flight(s.threads[t]).Some?
    ensures var q := Flight(s.threads[t]).value;
      && q in s.ref && q in s.mem && s.ref[q] == 0 && q !in s.free
      && (forall t' :: t' in s.threads && t' != t ==> Flight(s.threads[t']) != Some(q))
  {
    hide Workers, Spans, Ops, Exact, Private, Sharing;
  }

  lemma HeldFacts(s: State, t: Asid)
    requires Inv(s) && t in s.threads
    ensures t in s.sz && OpOk(s, t, s.threads[t].op) && SubOk(s, t, s.threads[t].op, s.threads[t].sub)
    ensures SoleOk(s, t, s.threads[t].op)
    ensures Held(s.threads[t]).Some? ==> Held(s.threads[t]).value in s.ref && s.ref[Held(s.threads[t]).value] == 1
  {
    hide Workers, Spans, Exact, Lists, Sharing, SoleOk;
    assert OpOk(s, t, s.threads[t].op) && SubOk(s, t, s.threads[t].op, s.threads[t].sub);
  }

  lemma KernelNotFree(s: State, q: Page)
    requires Inv(s) && q in s.ref && s.ref[q] == 0
    ensures q !in s.kern
  {
    hide Struct, Lists, Private, Sharing;
    Ownerless(s, q);
  }

  // A page in flight gets its first owner.
  lemma FirstOwner(s: State, s': State, t: Asid, q: Page)
    requires Inv(s) && Touch(s, s', t) && AtStep(s, s', t) && Flight(s.threads[t]) == Some(q)
    requires Flight(s'.threads[t]) == None && !s.threads[t].sub.Gone?
    requires q in s.ref && s'.ref == s.ref[q := 1] && s'.free == s.free && s'.pt == s.pt
    requires forall sl :: Excl(t, s'.threads[t], sl) <==> Excl(t, s.threads[t], sl)
    requires SoleOk(s', t, s'.threads[t].op)
    requires || (s'.kern == s.kern + {q} && Held(s'.threads[t]) == Held(s.threads[t]))
             || (s'.kern == s.kern && Held(s.threads[t]) == None && Held(s'.threads[t]) == Some(q))
    ensures Ownership(s')
  {
    hide Shape, Workers, Spans, Ops, Exact, Lists, Private, Touch, SoleOk, Flight, Sharing, Stale;
    StaleAt(s, s', t);
    SharingLess(s, s');
    InFlight(s, t);
    HeldFacts(s, t);
    KernelNotFree(s, q);
    ExcludedAt(s, s', t);
    ExactBut(s, s', t, Slot(t, 0));
    ListsRef(s, s', t, q);
    PrivateRef(s, s', t);
  }

  lemma OwnSetRef(s: State, t: Asid)
    requires Inv(s) && CanSetRef(s, t) && Touch(s, DoSetRef(s, t), t)
    ensures Ownership(DoSetRef(s, t))
  {
    hide Inv, Ownership, Touch, OpOk;
    var q, s' := s.threads[t].sub.pg, DoSetRef(s, t);
    InFlight(s, t);
    HeldFacts(s, t);
    FirstOwner(s, s', t, q);
  }

  // ----- a count of one that t gives up is nobody else's -----

  // A fault handler that saw a count of one has a counted PTE.
  lemma SoleCounted(s: State, t: Asid)
    requires Inv(s) && t in s.threads && s.threads[t].op.CowSole? && Slot(t, s.threads[t].op.v) in s.pt
    ensures var sl := Slot(t, s.threads[t].op.v); sl in PteOwners(s, s.pt[sl].pa)
  {
    hide Spans, Exact, Lists, Private, Sharing, Sizes, OpOk, SubOk;
    OwnSlot(s, t, s.threads[t].op.v);
  }

  lemma NotPrivateHolder(s: State, s': State, t: Asid, q: Page)
    requires Inv(s) && t in s.threads && Held(s.threads[t]) == Some(q) && q in s.ref && s'.kern == s.kern
    ensures NotPrivate(s, s', t, q)
  {
    hide Struct, Lists, Sharing, Sizes, Excluded;
    assert t in Holders(s, q);
    LoneHolder(s, t, q);
    hide Exact, Private;
    forall t' | t' in s.threads && t' != t
      ensures Held(s.threads[t']) != Some(q)
      ensures s.threads[t'].op.CowSole? && Slot(t', s.threads[t'].op.v) in s.pt ==>
        s.pt[Slot(t', s.threads[t'].op.v)].pa != q
    {
      assert t' !in Holders(s, q);
      if s.threads[t'].op.CowSole? && Slot(t', s.threads[t'].op.v) in s.pt {
        SoleCounted(s, t');
      }
    }
  }

  lemma NotPrivatePte(s: State, s': State, t: Asid, sl: Slot)
    requires Inv(s) && t in s.threads && Counted(s, sl) && (sl.a == t || sl.a !in s.threads) && s'.kern == s.kern
    requires s.ref[s.pt[sl].pa] == 1
    ensures NotPrivate(s, s', t, s.pt[sl].pa)
  {
    hide Workers, Spans, Ops, Lists, Sharing, Sizes, Excluded;
    var q := s.pt[sl].pa;
    assert sl in PteOwners(s, q);
    LonePte(s, sl, q);
    hide Exact, Private;
    forall t' | t' in s.threads && t' != t
      ensures Held(s.threads[t']) != Some(q)
      ensures s.threads[t'].op.CowSole? && Slot(t', s.threads[t'].op.v) in s.pt ==>
        s.pt[Slot(t', s.threads[t'].op.v)].pa != q
    {
      assert t' !in Holders(s, q);
      if s.threads[t'].op.CowSole? && Slot(t', s.threads[t'].op.v) in s.pt {
        SoleCounted(s, t');
      }
    }
  }

  // ----- kfree -----

  lemma OwnKernFree(s: State, t: Asid, pg: Page)
    requires Inv(s) && CanKernFree(s, t, pg) && s.ref[pg] == 1 && Touch(s, DoKernFree(s, t, pg), t)
    ensures Ownership(DoKernFree(s, t, pg))
  {
    hide Shape, Workers, Spans, Ops, Exact, Lists, Private, Touch, Sharing, Stale;
    var s' := DoKernFree(s, t, pg);
    StaleAt(s, s', t);
    SharingLess(s, s');
    ExcludedAt(s, s', t);
    ExactBut(s, s', t, Slot(t, 0));
    ListsSame(s, s', t);
    PrivateRef(s, s', t);
  }

  // The last owner was t itself: the kernel's page, or the page of a failed growth.
  lemma OwnLastHolder(s: State, t: Asid)
    requires Inv(s) && CanFreeDec(s, t) && s.ref[s.threads[t].sub.pg] == 1 && Touch(s, DoFreeDec(s, t), t)
    requires Held(s.threads[t]) == Some(s.threads[t].sub.pg) && Held(DoFreeDec(s, t).threads[t]) == None
    ensures Ownership(DoFreeDec(s, t))
  {
    hide Shape, Workers, Spans, Ops, Exact, Lists, Private, Touch, Sharing, Stale;
    var q, s' := s.threads[t].sub.pg, DoFreeDec(s, t);
    StaleAt(s, s', t);
    SharingLess(s, s');
    HeldFacts(s, t);
    Positive(s, q);
    NotPrivateHolder(s, s', t, q);
    ExcludedAt(s, s', t);
    ExactBut(s, s', t, Slot(t, 0));
    ListsRef(s, s', t, q);
    PrivateRef(s, s', t);
  }

  lemma Positive(s: State, q: Page)
    requires Inv(s) && q in s.ref && s.ref[q] != 0
    ensures q !in s.free && (forall t :: t in s.threads ==> Flight(s.threads[t]) != Some(q))
  {
    hide Struct, Exact, Private, Sharing;
  }

  // The PTE an operation is about to drop is counted until it is dropped.
  lemma DroppedSlot(s: State, t: Asid)
    requires Inv(s) && t in s.threads && s.threads[t].sub.Checked? && !s.threads[t].sub.kernel
    requires s.threads[t].op.CowCopied? || s.threads[t].op.Unmap?
    ensures var sl := DropSlot(t, s.threads[t].op);
      && Counted(s, sl) && s.pt[sl].pa == s.threads[t].sub.pg && (sl.a == t || sl.a !in s.threads)
  {
    hide Spans, Exact, Lists, Private, Sharing;
    var op := s.threads[t].op;
    assert OpOk(s, t, op) && SubOk(s, t, op, s.threads[t].sub);
    if op.CowCopied? {
      OwnSlot(s, t, op.v);
    } else if op.fin.Delete? {
      TargetSlot(s, t, op.sp, op.j);
    } else {
      OwnSlot(s, t, op.j);
    }
  }

  function DropSlot(t: Asid, op: Op): Slot
    requires op.CowCopied? || op.Unmap?
  {
    if op.CowCopied? then Slot(t, op.v) else Slot(op.sp, op.j)
  }

  // The PTE stays, but kfree has taken its count: it may be the last, or one of several.
  lemma OwnDropPte(s: State, t: Asid, s': State, sub: Sub)
    requires Inv(s) && t in s.threads && s.threads[t].sub.Checked? && !s.threads[t].sub.kernel && Touch(s, s', t)
    requires s.threads[t].op.CowCopied? || s.threads[t].op.Unmap?
    requires s.threads[t].sub.pg in s.ref
    requires var q := s.threads[t].sub.pg;
      && (sub == Gone(q) || (sub == Dying(q, false) && s.ref[q] == 1))
      && s' == At(s.(ref := s.ref[q := s.ref[q] - 1]), t, s.threads[t].op, sub)
    ensures Ownership(s')
  {
    hide Shape, Workers, Spans, Ops, Exact, Lists, Private, Touch, OpOk, SubOk, Sharing, Stale;
    HeldFacts(s, t);
    DroppedSlot(s, t);
    ExcludedAt(s, s', t);
    StaleAt(s, s', t);
    SharingLess(s, s');
    LosePte(s, s', t, DropSlot(t, s.threads[t].op));
  }

  // A counted PTE stops being counted.
  lemma LosePte(s: State, s': State, t: Asid, sl: Slot)
    requires Inv(s) && Touch(s, s', t) && AtStep(s, s', t) && SameBut(s, s', sl) && Counted(s, sl) && !Counted(s', sl)
    requires (sl.a == t || sl.a !in s.threads) && s.pt[sl].pa in s.ref && Sharing(s')
    requires s'.ref == s.ref[s.pt[sl].pa := s.ref[s.pt[sl].pa] - 1] && s'.kern == s.kern && s'.free == s.free
    requires Held(s'.threads[t]) == Held(s.threads[t])
    requires Flight(s'.threads[t]) == None || (Flight(s'.threads[t]) == Some(s.pt[sl].pa) && s.ref[s.pt[sl].pa] == 1)
    requires SoleOk(s', t, s'.threads[t].op)
    ensures Ownership(s')
  {
    hide Shape, Workers, Spans, Ops, Exact, Lists, Private, Touch, SoleOk, Flight, Sharing, SameBut, Held, OpOk, SubOk,
      Stale;
    var q := s.pt[sl].pa;
    HeldFacts(s, t);
    CountedPositive(s, sl);
    StaleUncounted(s, sl);
    if Held(s.threads[t]).Some? {
      HeldUnmapped(s, t, sl);
    }
    hide Counted, Excluded;
    Positive(s, q);
    if s.ref[q] == 1 {
      NotPrivatePte(s, s', t, sl);
    }
    ExactBut(s, s', t, sl);
    ListsRef(s, s', t, q);
    PrivateRef(s, s', t);
  }

  // The slot sl may change hands between a holder and a PTE; counts stay.
  lemma Settle(s: State, s': State, t: Asid, sl: Slot)
    requires Inv(s) && Touch(s, s', t) && AtStep(s, s', t) && SameBut(s, s', sl)
    requires forall pg :: pg in s.ref ==> Delta(s, s', t, sl, pg) == 0
    requires s'.ref == s.ref && s'.kern == s.kern
    requires Held(s'.threads[t]) == Held(s.threads[t]) || Held(s'.threads[t]) == None
    requires Lists(s') && Sharing(s') && SoleOk(s', t, s'.threads[t].op)
    ensures Ownership(s')
  {
    hide Shape, Workers, Spans, Ops, Exact, Lists, Private, Touch, SoleOk, Sharing, SameBut, Held, OpOk, SubOk, Delta;
    HeldFacts(s, t);
    ExactBut(s, s', t, sl);
    PrivateRef(s, s', t);
  }

  // ----- a dead page reaches the free list -----

  lemma ListsPush(s: State, s': State, t: Asid, q: Page)
    requires Lists(s) && AtStep(s, s', t) && Flight(s.threads[t]) == Some(q) && Flight(s'.threads[t]) == None
    requires s'.free == [q] + s.free && s'.ref == s.ref
    ensures Lists(s')
  {
  }

  lemma OwnFreePush(s: State, t: Asid)
    requires Inv(s) && CanFreePush(s, t) && Touch(s, DoFreePush(s, t), t)
    ensures Ownership(DoFreePush(s, t))
  {
    hide Shape, Workers, Spans, Ops, Exact, Private, Touch, OpOk, Sharing, Stale;
    var s' := DoFreePush(s, t);
    HeldFacts(s, t);
    ExcludedAt(s, s', t);
    ListsPush(s, s', t, s.threads[t].sub.pg);
    hide Lists;
    StaleAt(s, s', t);
    SharingLess(s, s');
    Settle(s, s', t, Slot(t, 0));
  }

  // ----- after kfree has returned -----

  // uvmunmap clears the stale PTE.
  lemma OwnUnmapped(s: State, t: Asid)
    requires Inv(s) && CanFreeDone(s, t) && s.threads[t].op.Unmap? && Touch(s, DoFreeDone(s, t), t)
    ensures Ownership(DoFreeDone(s, t))
  {
    hide Shape, Workers, Spans, Ops, Exact, Private, Touch, OpOk, Sharing, Stale;
    var s' := DoFreeDone(s, t);
    ExcludedAt(s, s', t);
    ListsSame(s, s', t);
    hide Lists;
    StaleAt(s, s', t);
    SharingLess(s, s');
    Settle(s, s', t, Slot(s.threads[t].op.sp, s.threads[t].op.j));
  }

  lemma SharingRemapped(s: State, t: Asid)
    requires Inv(s) && CanFreeDone(s, t) && s.threads[t].op.CowCopied? && Slot(t, s.threads[t].op.v) in s.pt
    ensures Sharing(DoFreeDone(s, t))
  {
    hide Inv, OpOk, SubOk, Sharing, Stale;
    var s', sl := DoFreeDone(s, t), Slot(t, s.threads[t].op.v);
    HeldFacts(s, t);
    forall x | x in s.pt && !Stale(s, x) ensures s.pt[x].pa != s.threads[t].op.fresh_ {
      HeldElsewhere(s, t, x);
    }
    StaleAt(s, s', t);
    SharingOf(s);
    SharingFresh(s, s', sl);
  }

  lemma SharingOf(s: State)
    requires Inv(s)
    ensures Sharing(s)
  {
  }

  lemma HeldElsewhere(s: State, t: Asid, x: Slot)
    requires Inv(s) && t in s.threads && Held(s.threads[t]).Some? && x in s.pt && !Stale(s, x)
    ensures s.pt[x].pa != Held(s.threads[t]).value
  {
    hide Struct, Exact, Lists, Private, Sharing;
    HeldFacts(s, t);
    HeldUnmapped(s, t, x);
  }

  // Only the PTE sl changes, and t excludes no other PTE than before.
  lemma SameButAt(s: State, s': State, t: Asid, sl: Slot)
    requires AtStep(s, s', t) && (forall x :: x != sl ==> SameSlot(s, s', x))
    requires forall x :: x != sl ==> (Excl(t, s'.threads[t], x) <==> Excl(t, s.threads[t], x))
    ensures SameBut(s, s', sl)
  {
    ExcludedAt(s, s', t);
    hide Excluded, ExclOther, Excl;
    forall x | x != sl ensures SameSlot(s, s', x) && (Excluded(s', x) <==> Excluded(s, x)) {
    }
  }

  // A page t held becomes the page of its PTE sl.
  lemma HolderToPte(s: State, s': State, t: Asid, sl: Slot)
    requires Inv(s) && Touch(s, s', t) && AtStep(s, s', t) && SameBut(s, s', sl) && !Counted(s, sl) && Counted(s', sl)
    requires Held(s.threads[t]) == Some(s'.pt[sl].pa) && Held(s'.threads[t]) == None
    requires s'.ref == s.ref && s'.kern == s.kern && s'.free == s.free
    requires Flight(s'.threads[t]) == Flight(s.threads[t]) && Sharing(s') && SoleOk(s', t, s'.threads[t].op)
    ensures Ownership(s')
  {
    hide Shape, Workers, Spans, Ops, Exact, Private, Touch, SoleOk, Sharing, SameBut, Counted, Held, Flight;
    ListsSame(s, s', t);
    hide Lists;
    Settle(s, s', t, sl);
  }

  // mappages installs the private copy in its place.
  lemma OwnRemapped(s: State, t: Asid)
    requires Inv(s) && CanFreeDone(s, t) && s.threads[t].op.CowCopied? && Touch(s, DoFreeDone(s, t), t)
    requires Slot(t, s.threads[t].op.v) in s.pt
    ensures Ownership(DoFreeDone(s, t))
  {
    hide Inv, Ownership, Touch, OpOk, SubOk, Sharing, SameBut;
    var s', sl := DoFreeDone(s, t), Slot(t, s.threads[t].op.v);
    NewSlotCounted(s, s', t, s.threads[t].op.v);
    assert Excl(t, s.threads[t], sl);
    SameButAt(s, s', t, sl);
    SharingRemapped(s, t);
    HolderToPte(s, s', t, sl);
  }

  // uvmalloc's failure path goes on to uvmdealloc.
  lemma OwnGrowUndo(s: State, t: Asid)
    requires Inv(s) && CanFreeDone(s, t) && s.threads[t].op.GrowDrop? && Touch(s, DoFreeDone(s, t), t)
    ensures Ownership(DoFreeDone(s, t))
  {
    hide Inv, Ownership, Touch;
    QuietStep(s, DoFreeDone(s, t), t);
  }

  // Nothing but t's own step can make a PTE of t uncounted.
  lemma NewSlotCounted(s: State, s': State, t: Asid, v: nat)
    requires Inv(s) && AtStep(s, s', t)
    ensures Excluded(s', Slot(t, v)) <==> Excl(t, s'.threads[t], Slot(t, v))
  {
    hide Spans, Exact, Lists, Private, Sharing, Sizes;
    forall t' | t' in s'.threads && t' != t ensures !Excl(t', s'.threads[t'], Slot(t, v)) {
      assert OpOk(s, t', s.threads[t'].op);
    }
  }
}
