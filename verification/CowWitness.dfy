/**
  Reachable states of the copy-on-write machine in which it differs from the
  eager one, or from what a first reading of the code suggests.  Each is the
  end of a run from boot, one lemma for each step.
 */
module CowWitness {
  import opened Optional
  import opened CowModel
  import opened CowInvariant
  import opened CowOwners
  import opened CowRefinement
  import opened CowTheorems

  // ----- reachable states -----

  ghost predicate Reachable(s: State)
  {
    exists run, moves :: IsRun(run, moves) && Boot(run[0]) && run[|run| - 1] == s
  }

  lemma ReachStart(s: State)
    requires Boot(s)
    ensures Reachable(s)
  {
    hide Boot;
    assert IsRun([s], []) && [s][0] == s;
  }

  lemma ReachStep(s: State, t: Asid, e: Event, s': State)
    requires Reachable(s) && Enabled(s, t, e) && s' == Do(s, t, e)
    ensures Reachable(s')
  {
    hide Boot, Do;
    var run, moves :| IsRun(run, moves) && Boot(run[0]) && run[|run| - 1] == s;
    var more, steps := run + [s'], moves + [Move(t, e)];
    forall i | 0 <= i < |steps|
      ensures Enabled(more[i], steps[i].t, steps[i].e) && more[i + 1] == Do(more[i], steps[i].t, steps[i].e)
    {
      if i < |moves| {
        assert more[i] == run[i] && more[i + 1] == run[i + 1] && steps[i] == moves[i];
      }
    }
    assert IsRun(more, steps) && more[0] == run[0] && more[|more| - 1] == s';
  }

  lemma ReachInv(s: State)
    requires Reachable(s)
    ensures Inv(s)
  {
    hide Boot, Inv, Do, Enabled;
    var run, moves :| IsRun(run, moves) && Boot(run[0]) && run[|run| - 1] == s;
    RunSafe(run, moves, |run| - 1);
  }

  // ----- one process grows by one byte and forks -----

  const READ_ONLY := Perm(true, false, false, true)
  const WRITABLE := Perm(true, true, false, true)

  // Process 0 alone, at th, with size bytes in size pages; page 0 has count n and contents d.
  ghost predicate One(s: State, free: seq<Page>, n: int, d: Data, th: Thread, size: nat, pt: map<Slot, Pte>)
  {
    && !s.stuck && s.free == free && s.pt == pt && 1 !in s.sz && 1 !in s.threads
    && 0 in s.ref && s.ref[0] == n && 1 in s.ref && s.ref[1] == 0 && 0 in s.mem && s.mem[0] == d && 1 in s.mem
    && 0 in s.threads && s.threads[0] == th && 0 in s.sz && s.sz[0] == size && 0 in s.bytes && s.bytes[0] == size
  }

  lemma ReachBooted() returns (s: State)
    ensures Reachable(s) && One(s, [0, 1], 0, Fill(1), Thread(Idle, NoSub), 0, map[])
  {
    s := State([0, 1], map[0 := 0, 1 := 0], map[0 := Fill(1), 1 := Fill(1)], map[], map[0 := 0], map[0 := 0],
               map[0 := Thread(Idle, NoSub)], {}, {}, false);
    ReachStart(s);
  }

  lemma ReachAsking(perm: Perm) returns (s: State)
    requires perm.r && perm.u
    ensures Reachable(s) && One(s, [0, 1], 0, Fill(1), Thread(Grow(0, 1, perm), NoSub), 0, map[])
  {
    hide Reachable;
    var s0 := ReachBooted();
    s := Do(s0, 0, GrowStart(1, perm));
    ReachStep(s0, 0, GrowStart(1, perm), s);
  }

  lemma ReachOffered(perm: Perm) returns (s: State)
    requires perm.r && perm.u
    ensures Reachable(s) && One(s, [1], 0, Fill(1), Thread(Grow(0, 1, perm), Popped(0, ToOp)), 0, map[])
  {
    hide Reachable;
    var s0 := ReachAsking(perm);
    s := Do(s0, 0, Pop(ToOp));
    ReachStep(s0, 0, Pop(ToOp), s);
  }

  lemma ReachGiven(perm: Perm) returns (s: State)
    requires perm.r && perm.u
    ensures Reachable(s) && One(s, [1], 1, Fill(5), Thread(GrowHave(0, 1, perm, 0), NoSub), 0, map[])
  {
    hide Reachable;
    var s0 := ReachOffered(perm);
    s := Do(s0, 0, SetRef);
    ReachStep(s0, 0, SetRef, s);
  }

  lemma ReachFilled(perm: Perm) returns (s: State)
    requires perm.r && perm.u
    ensures Reachable(s)
    ensures One(s, [1], 1, Fill(0), Thread(Grow(1, 1, perm), NoSub), 0, map[Slot(0, 0) := Pte(0, perm, false)])
  {
    hide Reachable;
    var s0 := ReachGiven(perm);
    s := Do(s0, 0, GrowMap);
    ReachStep(s0, 0, GrowMap, s);
  }

  // After sbrk(1): one byte of memory, in one page of zeros.
  lemma ReachGrown(perm: Perm) returns (s: State)
    requires perm.r && perm.u
    ensures Reachable(s) && One(s, [1], 1, Fill(0), Thread(Idle, NoSub), 1, map[Slot(0, 0) := Pte(0, perm, false)])
  {
    hide Reachable;
    var s0 := ReachFilled(perm);
    s := Do(s0, 0, GrowDone);
    ReachStep(s0, 0, GrowDone, s);
  }

  // Page 0 belongs to process 0 and, once p1 is there, to process 1, whose thread may not exist yet.
  ghost predicate Two(s: State, n: int, th: Thread, kid: Option<Thread>, p0: Pte, p1: Option<Pte>)
  {
    && !s.stuck && 0 in s.ref && s.ref[0] == n && 0 in s.mem && s.mem[0] == Fill(0) && 1 in s.sz
    && 0 in s.threads && s.threads[0] == th && 0 in s.sz && s.sz[0] == 1 && 0 in s.bytes && s.bytes[0] == 1
    && (kid.Some? ==>
          && 1 in s.threads && s.threads[1] == kid.value
          && s.sz[1] == 1 && 1 in s.bytes && s.bytes[1] == 1)
    && Slot(0, 0) in s.pt && s.pt[Slot(0, 0)] == p0
    && (Slot(1, 0) in s.pt <==> p1.Some?) && (p1.Some? ==> s.pt[Slot(1, 0)] == p1.value)
  }

  // Page 1: free, or taken with a count of one.
  predicate Spare(s: State, free: seq<Page>, n: int)
  {
    s.free == free && 1 in s.ref && s.ref[1] == n && 1 in s.mem
  }

  lemma ReachForking(perm: Perm) returns (s: State)
    requires perm.r && perm.u
    ensures Reachable(s) && Spare(s, [1], 0)
    ensures Two(s, 1, Thread(Fork(1, 0, Start), NoSub), None, Pte(0, perm, false), None)
  {
    hide Reachable;
    var s0 := ReachGrown(perm);
    s := Do(s0, 0, ForkStart(1));
    ReachStep(s0, 0, ForkStart(1), s);
  }

  lemma ReachShielded(perm: Perm) returns (s: State)
    requires perm.r && perm.u
    ensures Reachable(s) && Spare(s, [1], 0)
    ensures Two(s, 1, Thread(Fork(1, 0, Protected), NoSub), None, Shared(Pte(0, perm, false)), None)
  {
    hide Reachable;
    var s0 := ReachForking(perm);
    s := Do(s0, 0, ForkProtect);
    ReachStep(s0, 0, ForkProtect, s);
  }

  lemma ReachSharedPage(perm: Perm) returns (s: State)
    requires perm.r && perm.u
    ensures Reachable(s) && Spare(s, [1], 0)
    ensures Two(s, 1, Thread(Fork(1, 0, Mapped), NoSub),
      None, Shared(Pte(0, perm, false)), Some(Shared(Pte(0, perm, false))))
  {
    hide Reachable;
    var s0 := ReachShielded(perm);
    s := Do(s0, 0, ForkMap);
    ReachStep(s0, 0, ForkMap, s);
  }

  lemma ReachCountedTwice(perm: Perm) returns (s: State)
    requires perm.r && perm.u
    ensures Reachable(s) && Spare(s, [1], 0)
    ensures Two(s, 2, Thread(Fork(1, 1, Start), NoSub),
      None, Shared(Pte(0, perm, false)), Some(Shared(Pte(0, perm, false))))
  {
    hide Reachable;
    var s0 := ReachSharedPage(perm);
    s := Do(s0, 0, ForkInc);
    ReachStep(s0, 0, ForkInc, s);
  }

  // After fork: two processes, the page shared.
  lemma ReachForked(perm: Perm) returns (s: State)
    requires perm.r && perm.u
    ensures Reachable(s) && Spare(s, [1], 0)
    ensures Two(s, 2, Thread(Idle, NoSub),
      Some(Thread(Idle, NoSub)), Shared(Pte(0, perm, false)), Some(Shared(Pte(0, perm, false))))
  {
    hide Reachable;
    var s0 := ReachCountedTwice(perm);
    s := Do(s0, 0, ForkDone);
    ReachStep(s0, 0, ForkDone, s);
  }

  // copyout to a read-only page that fork has shared changes what the other process sees.
  lemma ReadOnlyCopyoutLeaks() returns (s: State)
    ensures Reachable(s) && CanCopyoutBytes(s, 0) && s.threads[0].op == CopyBytes(0, Write(0, [7]), false)
    ensures 1 in Abs(s) && 0 in Abs(s)[1] && Abs(s)[1][0].data == Fill(0)
    ensures var a := Abs(DoCopyoutBytes(s, 0)); 1 in a && 0 in a[1] && |a[1][0].data| > 0 && a[1][0].data[0] == 7
  {
    hide Reachable;
    var s0 := ReachForked(READ_ONLY);
    s := Do(s0, 0, CopyoutStart(0, Write(0, [7])));
    ReachStep(s0, 0, CopyoutStart(0, Write(0, [7])), s);
    assert Two(s, 2, Thread(CopyBytes(0, Write(0, [7]), false), NoSub), Some(Thread(Idle, NoSub)),
        Pte(0, READ_ONLY, false), Some(Pte(0, READ_ONLY, false)));
    assert View(s, 1)[0] == PageAt(s, Slot(1, 0));
    var s' := DoCopyoutBytes(s, 0);
    assert View(s', 1)[0] == PageAt(s', Slot(1, 0));
    assert 1 in s'.threads && 1 in s'.sz && 0 < Vis(s'.threads[1].op, s'.sz[1]);
    assert Abs(s')[1] == View(s', 1);
  }

  // ----- the last page -----

  // After sbrk(1) and fork, byte 100 of the page is beyond p->sz: the store that the eager machine
  // performs is, with memory free, neither allowed by the PTE nor taken for a copy-on-write fault.
  lemma TailStoreRefused() returns (s: State)
    ensures Reachable(s) && Ready(s, 0, Idle) && s.free != [] && 0 in s.bytes && s.bytes[0] == 1
    ensures Slot(0, 0) in s.pt && s.pt[Slot(0, 0)].perm.u && s.pt[Slot(0, 0)].cow
    ensures AEnabled(Abs(s), AStore(0, 0, 100, 7)) && !CanStore(s, 0, 0, 100) && !CanFault(s, 0, 0, 100)
  {
    hide Reachable;
    s := ReachForked(WRITABLE);
    assert View(s, 0)[0] == PageAt(s, Slot(0, 0));
    assert Abs(s)[0] == View(s, 0);
  }

  // ----- between kfree and the PTE -----

  const COW_PTE := Pte(0, Perm(true, false, false, true), true)

  // Process 0 handles its fault: page 1 becomes its copy.
  lemma ReachNeeds() returns (s: State)
    ensures Reachable(s) && Spare(s, [1], 0)
    ensures Two(s, 2, Thread(CowNeed(0, None), NoSub), Some(Thread(Idle, NoSub)), COW_PTE, Some(COW_PTE))
  {
    hide Reachable;
    var s0 := ReachForked(WRITABLE);
    s := Do(s0, 0, Fault(0, 0));
    ReachStep(s0, 0, Fault(0, 0), s);
  }

  lemma ReachTakes() returns (s: State)
    ensures Reachable(s) && Spare(s, [], 0)
    ensures Two(s, 2, Thread(CowNeed(0, None), Popped(1, ToOp)), Some(Thread(Idle, NoSub)), COW_PTE, Some(COW_PTE))
  {
    hide Reachable;
    var s0 := ReachNeeds();
    s := Do(s0, 0, Pop(ToOp));
    ReachStep(s0, 0, Pop(ToOp), s);
  }

  lemma ReachHas() returns (s: State)
    ensures Reachable(s) && Spare(s, [], 1)
    ensures Two(s, 2, Thread(CowHave(0, 1, None), NoSub), Some(Thread(Idle, NoSub)), COW_PTE, Some(COW_PTE))
  {
    hide Reachable;
    var s0 := ReachTakes();
    s := Do(s0, 0, SetRef);
    ReachStep(s0, 0, SetRef, s);
  }

  lemma ReachCopied() returns (s: State)
    ensures Reachable(s) && Spare(s, [], 1)
    ensures Two(s, 2, Thread(CowCopied(0, 1, None), NoSub), Some(Thread(Idle, NoSub)), COW_PTE, Some(COW_PTE))
  {
    hide Reachable;
    var s0 := ReachHas();
    s := Do(s0, 0, CopyPage);
    ReachStep(s0, 0, CopyPage, s);
  }

  lemma ReachFreeing() returns (s: State)
    ensures Reachable(s) && Spare(s, [], 1)
    ensures Two(s, 2, Thread(CowCopied(0, 1, None), Checked(0, false)),
      Some(Thread(Idle, NoSub)), COW_PTE, Some(COW_PTE))
  {
    hide Reachable;
    var s0 := ReachCopied();
    s := Do(s0, 0, FreeCheck);
    ReachStep(s0, 0, FreeCheck, s);
  }

  lemma ReachLetGo() returns (s: State)
    ensures Reachable(s) && Spare(s, [], 1)
    ensures Two(s, 1, Thread(CowCopied(0, 1, None), Gone(0)), Some(Thread(Idle, NoSub)), COW_PTE, Some(COW_PTE))
  {
    hide Reachable;
    var s0 := ReachFreeing();
    s := Do(s0, 0, FreeDec);
    ReachStep(s0, 0, FreeDec, s);
  }

  // Process 1 faults, and finds a count of one.
  lemma ReachAlone() returns (s: State)
    ensures Reachable(s) && Spare(s, [], 1)
    ensures Two(s, 1, Thread(CowCopied(0, 1, None), Gone(0)), Some(Thread(CowSole(0), NoSub)), COW_PTE, Some(COW_PTE))
  {
    hide Reachable;
    var s0 := ReachLetGo();
    s := Do(s0, 1, Fault(0, 0));
    ReachStep(s0, 1, Fault(0, 0), s);
  }

  // No PTE of an idle process is in the middle of its removal.
  lemma IdleCounted(s: State, t: Asid, v: nat)
    requires Inv(s) && Ready(s, t, Idle)
    ensures !Excluded(s, Slot(t, v))
  {
    hide Spans, Ownership, Sizes;
    OwnSlot(s, t, v);
  }

  // kfree gives the count away before uvmunmap clears the PTE: the other process can make the page
  // writable while a PTE of the first still points to it.
  lemma StalePteRemains() returns (s: State)
    ensures Reachable(s) && Slot(0, 0) in s.pt && Slot(1, 0) in s.pt && s.pt[Slot(1, 0)].perm.w
    ensures s.pt[Slot(0, 0)].pa == s.pt[Slot(1, 0)].pa && Stale(s, Slot(0, 0)) && !Excluded(s, Slot(1, 0))
  {
    hide Reachable, Inv;
    var s0 := ReachAlone();
    s := Do(s0, 1, TakeSole);
    ReachStep(s0, 1, TakeSole, s);
    assert s.threads[0].sub.Gone? && Drops(0, s.threads[0].op, Slot(0, 0));
    ReachInv(s);
    IdleCounted(s, 1, 0);
  }
}
