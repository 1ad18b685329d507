/**
  The remaining steps of the copy-on-write machine: a fault that leaves a
  shared page, uvmcopy, growth, permission changes, birth and death.

  uvmcopy maps a page into the child one step before it raises the count, so
  here too a PTE exists that is not yet counted.  The parent's own PTE has lost
  PTE_W before that, so nothing can be written through either mapping in the
  meantime.  A process that is born takes over the PTEs that its parent's fork
  has built, and one that dies leaves its own to be unmapped by wait.
 */
module CowForkGrow {
  import opened Optional
  import opened CowModel
  import opened CowInvariant
  import opened CowStruct
  import opened CowOwners
  import opened CowOwnership
  import opened CowTransfer

  // ----- permission bits -----

  // Only the flags of t's PTE at v change.
  lemma OwnFlags(s: State, t: Asid, s': State, v: nat)
    requires Inv(s) && AtStep(s, s', t) && Touch(s, s', t) && Slot(t, v) in s.pt && Slot(t, v) in s'.pt
    requires s' == s.(pt := s.pt[Slot(t, v) := s'.pt[Slot(t, v)]], threads := s'.threads)
    requires s'.pt[Slot(t, v)].pa == s.pt[Slot(t, v)].pa && Sharing(s')
    requires Held(s'.threads[t]) == Held(s.threads[t]) && Flight(s'.threads[t]) == Flight(s.threads[t])
    requires forall sl :: Excl(t, s'.threads[t], sl) <==> Excl(t, s.threads[t], sl)
    requires SoleOk(s', t, s'.threads[t].op)
    ensures Ownership(s')
  {
    hide Shape, Workers, Spans, Ops, Exact, Private, Touch, SoleOk, Sharing;
    ExcludedAt(s, s', t);
    ListsSame(s, s', t);
    hide Lists;
    Settle(s, s', t, Slot(t, v));
  }

  // The page of a count of one becomes writable and shares with nobody.
  lemma SoleSharing(s: State, t: Asid)
    requires Inv(s) && CanTakeSole(s, t)
    ensures Sharing(DoTakeSole(s, t))
  {
    hide Spans, Workers, Ops, Lists, Private, Exact, SubOk, Excluded, Stale, Sharing;
    var v, s' := s.threads[t].op.v, DoTakeSole(s, t);
    HeldFacts(s, t);
    OwnSlot(s, t, v);
    forall x | x in s'.pt && x != Slot(t, v) && !Stale(s, x) ensures s.pt[x].pa != s'.pt[Slot(t, v)].pa {
      SoleMapping(s, Slot(t, v), x);
    }
    StaleAt(s, s', t);
    SharingFresh(s, s', Slot(t, v));
  }

  lemma OwnTakeSole(s: State, t: Asid)
    requires Inv(s) && CanTakeSole(s, t) && Touch(s, DoTakeSole(s, t), t)
    ensures Ownership(DoTakeSole(s, t))
  {
    hide Inv, Ownership, Touch, Sharing;
    SoleSharing(s, t);
    OwnFlags(s, t, DoTakeSole(s, t), s.threads[t].op.v);
  }

  lemma OwnForkProtect(s: State, t: Asid)
    requires Inv(s) && CanForkProtect(s, t) && Slot(t, s.threads[t].op.i) in s.pt && Touch(s, DoForkProtect(s, t), t)
    ensures Ownership(DoForkProtect(s, t))
  {
    hide Shape, Workers, Spans, Ops, Exact, Lists, Private, Touch;
    var i, s' := s.threads[t].op.i, DoForkProtect(s, t);
    OwnSlot(s, t, i);
    StaleUncounted(s, Slot(t, i));
    StaleAt(s, s', t);
    hide Stale;
    assert Sharing(s');
    hide Inv, Ownership, Sharing;
    OwnFlags(s, t, s', i);
  }

  lemma OwnClearUser(s: State, t: Asid, v: nat)
    requires Inv(s) && CanClearUser(s, t, v) && Touch(s, DoClearUser(s, t, v), t)
    ensures Ownership(DoClearUser(s, t, v))
  {
    hide Shape, Workers, Spans, Ops, Exact, Lists, Private, Touch;
    var s' := DoClearUser(s, t, v);
    StaleAt(s, s', t);
    hide Stale;
    assert Sharing(s');
    assert s'.threads == s.threads[t := s.threads[t]];
    hide Inv, Ownership, Sharing;
    OwnFlags(s, t, s', v);
  }

  // ----- uvmcopy -----

  // The child's PTE is the parent's, which is not stale.
  lemma SharingForkMap(s: State, t: Asid, s': State)
    requires Inv(s) && InFork(s, t, Protected) && AtStep(s, s', t) && Slot(t, s.threads[t].op.i) in s.pt
    requires var op := s.threads[t].op; s'.pt == s.pt[Slot(op.child, op.i) := s.pt[Slot(t, op.i)]]
    requires Slot(s.threads[t].op.child, s.threads[t].op.i) !in s.pt && !s'.threads[t].sub.Gone?
    ensures Sharing(s')
  {
    hide Shape, Workers, Spans, Ops, Exact, Lists, Private;
    var op := s.threads[t].op;
    HeldFacts(s, t);
    OwnSlot(s, t, op.i);
    StaleUncounted(s, Slot(t, op.i));
    StaleAt(s, s', t);
    hide Stale, Excluded, OpOk, SubOk;
  }

  lemma OwnForkMap(s: State, t: Asid, s': State)
    requires Inv(s) && InFork(s, t, Protected) && Touch(s, s', t) && Slot(t, s.threads[t].op.i) in s.pt
    requires var op := s.threads[t].op;
      && Slot(op.child, op.i) !in s.pt
      && s' == At(s.(pt := s.pt[Slot(op.child, op.i) := s.pt[Slot(t, op.i)]]), t, Fork(op.child, op.i, Mapped), NoSub)
    ensures Ownership(s')
  {
    hide Shape, Workers, Spans, Ops, Exact, Private, Touch;
    var op := s.threads[t].op;
    HeldFacts(s, t);
    ExcludedAt(s, s', t);
    ListsSame(s, s', t);
    hide Lists;
    SharingForkMap(s, t, s');
    hide Sharing;
    Settle(s, s', t, Slot(op.child, op.i));
  }

  lemma OwnForkInc(s: State, t: Asid, s': State)
    requires Inv(s) && InFork(s, t, Mapped) && Touch(s, s', t) && Slot(t, s.threads[t].op.i) in s.pt
    requires var op := s.threads[t].op; var pa := s.pt[Slot(t, op.i)].pa;
      && pa in s.ref
      && s' == At(s.(ref := s.ref[pa := s.ref[pa] + 1]), t, Fork(op.child, op.i + 1, Start), NoSub)
    ensures Ownership(s')
  {
    hide Shape, Spans, Exact, Lists, Private, Touch, OpOk;
    var op := s.threads[t].op;
    var q, sl := s.pt[Slot(t, op.i)].pa, Slot(op.child, op.i);
    LagSlot(s, t);
    OwnSlot(s, t, op.i);
    CountedPositive(s, Slot(t, op.i));
    hide Workers, Ops;
    Positive(s, q);
    if s.ref[q] == 1 {
      NotPrivatePte(s, s', t, Slot(t, op.i));
    }
    StaleAt(s, s', t);
    SharingLess(s, s');
    hide Sharing, Stale;
    ExcludedAt(s, s', t);
    LagEnds(s, s', t);
    ExactBut(s, s', t, sl);
    ListsRef(s, s', t, q);
    PrivateRef(s, s', t);
  }

  // The child's new PTE is the same as the parent's.
  lemma LagSlot(s: State, t: Asid)
    requires Inv(s) && InFork(s, t, Mapped)
    ensures var op := s.threads[t].op;
      && Slot(op.child, op.i) in s.pt && Slot(t, op.i) in s.pt && s.pt[Slot(op.child, op.i)] == s.pt[Slot(t, op.i)]
  {
    hide Exact, Lists, Private, Sharing;
    var op := s.threads[t].op;
    assert OpOk(s, t, op) && Target(op) == Some(op.child) && TargetPage(op, op.i);
  }

  // Once counted, the child's PTE is excluded by no one.
  lemma LagEnds(s: State, s': State, t: Asid)
    requires Inv(s) && InFork(s, t, Mapped) && AtStep(s, s', t) && s'.threads[t].op.Fork? && s'.threads[t].op.st.Start?
    ensures !ExclOther(s, t, Slot(s.threads[t].op.child, s.threads[t].op.i))
  {
    hide Spans, Exact, Lists, Private, Sharing;
    var sl := Slot(s.threads[t].op.child, s.threads[t].op.i);
    assert Target(s.threads[t].op) == Some(sl.a);
    forall t' | t' in s.threads && t' != t ensures !Excl(t', s.threads[t'], sl) {
      assert OpOk(s, t', s.threads[t'].op);
    }
  }

  // ----- growth -----

  lemma OwnGrowMap(s: State, t: Asid)
    requires Inv(s) && CanGrowMap(s, t) && Slot(t, s.threads[t].op.a) !in s.pt && Touch(s, DoGrowMap(s, t), t)
    ensures Ownership(DoGrowMap(s, t))
  {
    hide Inv, Ownership, Touch, OpOk, SubOk, Sharing, Stale, SameBut;
    var op, s' := s.threads[t].op, DoGrowMap(s, t);
    var sl := Slot(t, op.a);
    NewSlotCounted(s, s', t, op.a);
    SameButAt(s, s', t, sl);
    forall x | x in s.pt && !Stale(s, x) ensures s.pt[x].pa != op.fresh_ { HeldElsewhere(s, t, x); }
    StaleAt(s, s', t);
    SharingOf(s);
    SharingFresh(s, s', sl);
    HolderToPte(s, s', t, sl);
  }

  // ----- birth and death -----

  predicate Plain(th: Thread)
  {
    && th.sub.NoSub? && (th.op.Idle? || th.op.Unmap? || th.op.CowNeed? || (th.op.Fork? && th.op.st.Start?))
  }

  // Processes without a page in their hands come, go and change places.
  ghost predicate Population(s: State, s': State)
  {
    && s' == s.(threads := s'.threads, zombies := s'.zombies, sz := s'.sz, bytes := s'.bytes)
    && (forall t :: t in s'.threads ==> (t in s.threads && s'.threads[t] == s.threads[t]) || Plain(s'.threads[t]))
    && (forall t :: t in s.threads ==> (t in s'.threads && s'.threads[t] == s.threads[t]) || Plain(s.threads[t]))
    && (forall t :: t in s'.threads && t in s.threads && s'.threads[t] == s.threads[t] && t in s.sz ==>
          t in s'.sz && s'.sz[t] == s.sz[t])
  }

  lemma ExactPopulation(s: State, s': State)
    requires Exact(s) && Population(s, s')
    ensures Exact(s')
  {
    forall sl ensures Excluded(s', sl) <==> Excluded(s, sl) {
      if Excluded(s, sl) {
        var t :| t in s.threads && Excl(t, s.threads[t], sl);
        assert t in s'.threads && Excl(t, s'.threads[t], sl);
      }
      if Excluded(s', sl) {
        var t :| t in s'.threads && Excl(t, s'.threads[t], sl);
        assert t in s.threads && Excl(t, s.threads[t], sl);
      }
    }
    hide Excluded;
    forall pg | pg in s'.ref ensures s'.ref[pg] == OwnerCount(s', pg) {
      assert PteOwners(s', pg) == PteOwners(s, pg);
      assert Holders(s', pg) == Holders(s, pg);
    }
  }

  lemma OwnPopulation(s: State, s': State)
    requires Inv(s) && Population(s, s')
    ensures Ownership(s')
  {
    hide Workers, Spans, Ops, Exact;
    ExactPopulation(s, s');
    forall x | Stale(s, x) ensures Stale(s', x) {
      var t :| t in s.threads && s.threads[t].sub.Gone? && Drops(t, s.threads[t].op, x);
      assert t in s'.threads && s'.threads[t] == s.threads[t];
    }
    SharingLess(s, s');
    hide Stale, Sharing;
    forall t | t in s'.threads ensures SoleOk(s', t, s'.threads[t].op) {
      if t in s.threads && s'.threads[t] == s.threads[t] {
        assert SoleOk(s, t, s.threads[t].op);
      }
    }
  }
}
