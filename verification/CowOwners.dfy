/**
  Consequences of exact reference counts in the copy-on-write machine.
 */
module CowOwners {
  import opened Optional
  import opened CowModel
  import opened CowInvariant

  // A PTE of a live process is uncounted only through that process's own step.
  lemma OwnSlot(s: State, t: Asid, v: nat)
    requires Shape(s) && Workers(s) && Ops(s) && t in s.threads
    ensures Excluded(s, Slot(t, v)) <==> Excl(t, s.threads[t], Slot(t, v))
  {
    if Excluded(s, Slot(t, v)) {
      var t' :| t' in s.threads && Excl(t', s.threads[t'], Slot(t, v));
      assert OpOk(s, t', s.threads[t'].op);
    }
  }

  // A PTE of a space under construction or destruction: likewise.
  lemma TargetSlot(s: State, t: Asid, c: Asid, v: nat)
    requires Shape(s) && Workers(s) && Ops(s) && t in s.threads && Target(s.threads[t].op) == Some(c)
    ensures Excluded(s, Slot(c, v)) <==> Excl(t, s.threads[t], Slot(c, v))
  {
    if Excluded(s, Slot(c, v)) {
      var t' :| t' in s.threads && Excl(t', s.threads[t'], Slot(c, v));
      assert OpOk(s, t', s.threads[t'].op);
    }
  }

  // A process in the middle of uvmcopy counts as an owner of the page.
  ghost predicate ForkOwner(s: State, pg: Page)
  {
    exists t :: t in s.threads && s.threads[t].op.Fork? && Slot(t, s.threads[t].op.i) in PteOwners(s, pg)
  }

  // A stale PTE is not counted.
  lemma StaleUncounted(s: State, sl: Slot)
    ensures Stale(s, sl) ==> Excluded(s, sl)
  {
  }

  // An uncounted PTE that is not stale either shares its page with the process copying it, or its
  // page is on its way out.
  lemma UncountedSlot(s: State, sl: Slot)
    requires Struct(s) && Lists(s) && sl in s.pt && Excluded(s, sl) && !Stale(s, sl)
    ensures ForkOwner(s, s.pt[sl].pa) || s.ref[s.pt[sl].pa] == 0
  {
    var t :| t in s.threads && Excl(t, s.threads[t], sl);
    var op := s.threads[t].op;
    assert OpOk(s, t, op) && SubOk(s, t, op, s.threads[t].sub);
    if op.Fork? && op.st.Mapped? && sl == Slot(op.child, op.i) {
      OwnSlot(s, t, op.i);
      assert Slot(t, op.i) in PteOwners(s, s.pt[sl].pa);
    } else {
      assert Flight(s.threads[t]).Some?;
    }
  }

  // Every page mapped by a PTE that is not stale has an owner or is on its way out.
  lemma MappedSlot(s: State, sl: Slot)
    requires Struct(s) && Lists(s) && sl in s.pt && !Stale(s, sl)
    ensures PteOwners(s, s.pt[sl].pa) != {} || s.ref[s.pt[sl].pa] == 0
  {
    if Excluded(s, sl) {
      UncountedSlot(s, sl);
    } else {
      assert sl in PteOwners(s, s.pt[sl].pa);
    }
  }

  lemma Singleton<T>(a: set<T>, x: T)
    requires |a| <= 1 && x in a
    ensures a == {x}
  {
    assert |a - {x}| == |a| - 1;
  }

  // With a count of one, a counted PTE is the only owner.
  lemma LonePte(s: State, sl: Slot, pg: Page)
    requires Exact(s) && pg in s.ref && s.ref[pg] == 1 && sl in PteOwners(s, pg)
    ensures PteOwners(s, pg) == {sl} && Holders(s, pg) == {} && pg !in s.kern
  {
    assert PteOwners(s, pg) != {} && |PteOwners(s, pg)| >= 1;
    Singleton(PteOwners(s, pg), sl);
  }

  lemma LoneHolder(s: State, t: Asid, pg: Page)
    requires Exact(s) && pg in s.ref && s.ref[pg] == 1 && t in Holders(s, pg)
    ensures PteOwners(s, pg) == {} && Holders(s, pg) == {t} && pg !in s.kern
  {
    assert Holders(s, pg) != {} && |Holders(s, pg)| >= 1;
    Singleton(Holders(s, pg), t);
  }

  lemma LoneKernel(s: State, pg: Page)
    requires Exact(s) && pg in s.ref && s.ref[pg] == 1 && pg in s.kern
    ensures PteOwners(s, pg) == {} && Holders(s, pg) == {}
  {
  }

  lemma Ownerless(s: State, pg: Page)
    requires Exact(s) && pg in s.ref && s.ref[pg] == 0
    ensures PteOwners(s, pg) == {} && Holders(s, pg) == {} && pg !in s.kern
  {
  }

  // A page some operation holds privately is mapped nowhere, but for stale PTEs.
  lemma HeldUnmapped(s: State, t: Asid, sl: Slot)
    requires Struct(s) && Exact(s) && Lists(s) && Private(s)
    requires t in s.threads && Held(s.threads[t]).Some? && Held(s.threads[t]).value in s.ref
    requires sl in s.pt && !Stale(s, sl)
    ensures s.pt[sl].pa != Held(s.threads[t]).value
  {
    var pg := Held(s.threads[t]).value;
    assert t in Holders(s, pg);
    LoneHolder(s, t, pg);
    MappedSlot(s, sl);
  }

  // A counted PTE keeps its page off the free list.
  lemma CountedPositive(s: State, sl: Slot)
    requires Shape(s) && Exact(s) && sl in s.pt && !Excluded(s, sl)
    ensures s.ref[s.pt[sl].pa] >= 1 && sl in PteOwners(s, s.pt[sl].pa)
  {
    assert sl in PteOwners(s, s.pt[sl].pa);
    assert |PteOwners(s, s.pt[sl].pa)| >= 1;
  }

  // If a counted PTE's page has a count of one, no other PTE that is not stale maps it, unless its
  // process is in uvmcopy.
  lemma SoleMapping(s: State, x: Slot, y: Slot)
    requires Struct(s) && Exact(s) && Lists(s) && x in s.pt && !Excluded(s, x) && s.ref[s.pt[x].pa] == 1
    requires x.a in s.threads && !s.threads[x.a].op.Fork? && y in s.pt && x != y && !Stale(s, y)
    ensures s.pt[y].pa != s.pt[x].pa
  {
    CountedPositive(s, x);
    LonePte(s, x, s.pt[x].pa);
    if s.pt[y].pa == s.pt[x].pa {
      assert y !in PteOwners(s, s.pt[x].pa);
      UncountedSlot(s, y);
      assert false;
    }
  }
}
