/**
  The C functions of kalloc.c, vm.c and trap.c as methods on the kernel's
  variables.  Each method is a sequence of steps of the copy-on-write machine
  taken by one process, so everything proved about its runs holds of them.
 */
module CowKernel {
  import opened Optional
  import opened CowModel
  import opened CowInvariant
  import opened CowStruct
  import opened CowOwners
  import opened CowOwnership
  import opened CowTransfer
  import opened CowSafety
  import opened CowRefinement
  import opened CowTheorems

  // ----- kalloc and kfree as a whole -----

  function Allocated(s: State, t: Asid): State
    requires t in s.threads && s.free != [] && OpWantsPage(s.threads[t].op)
  {
    At(s.(free := s.free[1..], mem := s.mem[s.free[0] := Fill(5)], ref := s.ref[s.free[0] := 1]),
       t, GotPage(s.threads[t].op, s.free[0]), NoSub)
  }

  lemma AllocSteps(s: State, t: Asid)
    requires Inv(s) && CanPop(s, t, ToOp)
    ensures Inv(Allocated(s, t)) && Abs(Allocated(s, t)) == Abs(s)
  {
    hide Inv, Abs;
    var s1 := DoPop(s, t, ToOp);
    KeepPop(s, t, ToOp);
    SeePop(s, t, ToOp);
    KeepSetRef(s1, t);
    SeeSetRef(s1, t);
    assert Allocated(s, t) == DoSetRef(s1, t);
  }

  // kfree and the statements after it in uvmunmap.
  function Freed(s: State, t: Asid, pg: Page): State
    requires t in s.threads && pg in s.ref
  {
    if s.ref[pg] == 1 then
      AfterFree(s.(ref := s.ref[pg := 0], mem := s.mem[pg := Fill(1)], free := [pg] + s.free), t, s.threads[t].op)
    else AfterFree(s.(ref := s.ref[pg := s.ref[pg] - 1]), t, s.threads[t].op)
  }

  lemma FreeSteps(s: State, t: Asid)
    requires Inv(s) && Calm(s, t) && CallsFree(s.threads[t].op) && !s.threads[t].op.GrowDrop?
    ensures FreeTarget(s, t, s.threads[t].op).Some?
    ensures var pg := FreeTarget(s, t, s.threads[t].op).value;
      && pg in s.ref && pg in s.mem && s.ref[pg] >= 1
      && Inv(Freed(s, t, pg)) && Abs(Freed(s, t, pg)) == Abs(s)
  {
    hide Inv, Abs, AfterFree;
    TargetInRef(s, t);
    FreePositive(s, t);
    var op, pg := s.threads[t].op, FreeTarget(s, t, s.threads[t].op).value;
    var s1 := DoFreeCheck(s, t);
    KeepFreeCheck(s, t);
    SeeFreeCheck(s, t);
    var s2 := DoFreeDec(s1, t);
    KeepFreeDec(s1, t);
    SeeFreeDec(s1, t);
    var s3 := if s.ref[pg] == 1 then DoFreePush(s2, t) else s2;
    if s.ref[pg] == 1 {
      KeepFreePush(s2, t);
      SeeFreePush(s2, t);
    }
    KeepFreeDone(s3, t);
    SeeFreeDone(s3, t);
    assert DoFreeDone(s3, t) == Freed(s, t, pg) by {
      AfterFreeForgets(if s.ref[pg] == 1 then
                         s.(ref := s.ref[pg := 0], mem := s.mem[pg := Fill(1)], free := [pg] + s.free)
                       else s.(ref := s.ref[pg := s.ref[pg] - 1]), s3, t, op);
    }
  }

  lemma TargetInRef(s: State, t: Asid)
    requires Inv(s) && Calm(s, t) && CallsFree(s.threads[t].op)
    ensures CanFreeCheck(s, t)
    ensures FreeTarget(s, t, s.threads[t].op).Some? ==>
      FreeTarget(s, t, s.threads[t].op).value in s.ref && FreeTarget(s, t, s.threads[t].op).value in s.mem
  {
    hide Workers, Spans, Ownership;
    assert OpOk(s, t, s.threads[t].op);
  }

  // What follows kfree does not depend on where inside kfree the process was.
  lemma AfterFreeForgets(s: State, s': State, t: Asid, op: Op)
    requires t in s.threads && t in s'.threads && s' == s.(threads := s'.threads)
    requires s'.threads == s.threads[t := s'.threads[t]]
    ensures AfterFree(s, t, op) == AfterFree(s', t, op)
  {
    ThreadForgotten(s, s', t, Thread(AfterOp(s, t, op), NoSub));
  }

  lemma ThreadForgotten(s: State, s': State, t: Asid, th: Thread)
    requires t in s.threads && t in s'.threads && s'.threads == s.threads[t := s'.threads[t]]
    ensures s'.threads[t := th] == s.threads[t := th]
  {
  }

  // The private copy, once kalloc has succeeded: memmove, then drop the shared page.
  lemma CopySteps(s: State, t: Asid)
    requires Inv(s) && Calm(s, t) && s.threads[t].op.CowHave?
    ensures CanCopyPage(s, t) && Inv(DoCopyPage(s, t)) && Abs(DoCopyPage(s, t)) == Abs(s)
  {
    CopyReady(s, t);
    hide Inv, Abs;
    KeepCopyPage(s, t);
    SeeCopyPage(s, t);
  }

  lemma CopyReady(s: State, t: Asid)
    requires Inv(s) && Calm(s, t) && s.threads[t].op.CowHave?
    ensures CanCopyPage(s, t)
  {
    hide Inv;
    HeldFacts(s, t);
    MappedInMem(s, Slot(t, s.threads[t].op.v));
  }

  // The page about to be copied is not the one that kalloc hands out.
  lemma SharedNotFree(s: State, t: Asid)
    requires Inv(s) && CanPop(s, t, ToOp) && s.threads[t].op.CowNeed?
    ensures var sl := Slot(t, s.threads[t].op.v);
      sl in s.pt && s.pt[sl].pa in s.mem && s.pt[sl].pa != s.free[0]
  {
    hide Spans, Private, Sharing, Sizes;
    var v := s.threads[t].op.v;
    assert OpOk(s, t, s.threads[t].op);
    OwnSlot(s, t, v);
    CountedPositive(s, Slot(t, v));
    assert s.free[0] in s.free;
  }

  // The page the fault handler gives up.
  lemma SharedTarget(s: State, t: Asid)
    requires Inv(s) && Calm(s, t) && s.threads[t].op.CowCopied?
    ensures var sl := Slot(t, s.threads[t].op.v);
      sl in s.pt && FreeTarget(s, t, s.threads[t].op) == Some(s.pt[sl].pa) && s.pt[sl].pa in s.ref
  {
    hide Inv;
    HeldFacts(s, t);
    TargetInRef(s, t);
    FreePositive(s, t);
  }

  class Kernel {
    var free: seq<Page>
    var ref: map<Page, int>
    var mem: map<Page, Data>
    var pt: map<Slot, Pte>
    var bytes: map<Asid, nat>               // p->sz
    var sz: map<Asid, nat>                  // ... in pages, rounded up
    var zombies: set<Asid>
    var panicked: bool
    ghost var kern: set<Page>
    ghost var threads: map<Asid, Thread>    // where each process is

    ghost function Now(): State
      reads this
    {
      State(free, ref, mem, pt, bytes, sz, threads, zombies, kern, panicked)
    }

    method Kalloc() returns (r: Option<Page>)
      modifies `free, `mem, `ref
      ensures old(free) == [] ==> r == None && free == old(free) && mem == old(mem) && ref == old(ref)
      ensures old(free) != [] ==> r == Some(old(free)[0]) && free == old(free)[1..]
      ensures old(free) != [] ==> mem == old(mem)[old(free)[0] := Fill(5)] && ref == old(ref)[old(free)[0] := 1]
    {
      if free == [] {
        return None;
      }
      var pg := free[0];
      free := free[1..];
      mem := mem[pg := Fill(5)];
      ref := ref[pg := 1];
      r := Some(pg);
    }

    method Kfree(pg: Page)
      requires pg in ref && !panicked
      modifies `free, `mem, `ref, `panicked
      ensures panicked <==> old(ref)[pg] <= 0
      ensures old(ref)[pg] == 1 ==>
        ref == old(ref)[pg := 0] && mem == old(mem)[pg := Fill(1)] && free == [pg] + old(free)
      ensures old(ref)[pg] > 1 ==> ref == old(ref)[pg := old(ref)[pg] - 1] && mem == old(mem) && free == old(free)
    {
      if ref[pg] <= 0 {
        panicked := true;
        return;
      }
      if ref[pg] == 1 {
        ref := ref[pg := 0];
        mem := mem[pg := Fill(1)];
        free := [pg] + free;
      } else {
        ref := ref[pg := ref[pg] - 1];
      }
    }

    // uvmunmap(sp, lo, hi - lo, 1)
    method Uvmunmap(sp: Asid, lo: nat, hi: nat, ghost t: Asid)
      requires Inv(Now()) && Calm(Now(), t) && threads[t].op.Unmap?
      requires threads[t].op.sp == sp && threads[t].op.j == lo <= hi == threads[t].op.hi
      modifies this
      ensures Inv(Now()) && Abs(Now()) == old(Abs(Now()))
      ensures threads == old(threads)[t := Thread(Unmap(sp, hi, hi, old(threads[t].op.fin)), NoSub)]
      ensures sz == old(sz) && bytes == old(bytes) && zombies == old(zombies) && kern == old(kern)
    {
      hide Inv, Abs, FreeTarget;
      ghost var fin := threads[t].op.fin;
      var j := lo;
      while j < hi
        invariant Inv(Now()) && Abs(Now()) == old(Abs(Now())) && Calm(Now(), t)
        invariant j <= hi && threads == old(threads)[t := Thread(Unmap(sp, j, hi, fin), NoSub)]
        invariant sz == old(sz) && bytes == old(bytes) && zombies == old(zombies) && kern == old(kern)
      {
        UnmapPage(sp, j, hi, t);
        j := j + 1;
      }
    }

    // One iteration of uvmunmap.
    method UnmapPage(sp: Asid, j: nat, ghost hi: nat, ghost t: Asid)
      requires Inv(Now()) && Calm(Now(), t) && threads[t].op.Unmap?
      requires threads[t].op.sp == sp && threads[t].op.j == j < hi == threads[t].op.hi
      modifies `free, `ref, `mem, `pt, `threads, `panicked
      ensures Inv(Now()) && Abs(Now()) == old(Abs(Now())) && !panicked
      ensures threads == old(threads)[t := Thread(Unmap(sp, j + 1, hi, old(threads[t].op.fin)), NoSub)]
    {
      hide Inv, Abs, FreeTarget;
      ghost var s0, fin := Now(), threads[t].op.fin;
      FreeSteps(s0, t);
      UnmapTarget(s0, t);
      var pa := pt[Slot(sp, j)].pa;
      Kfree(pa);
      pt := pt - {Slot(sp, j)};
      threads := threads[t := Thread(Unmap(sp, j + 1, hi, fin), NoSub)];
      assert Now() == Freed(s0, t, pa);
      NotStuck(Now());
    }

    // Replace the shared page v of t by a private copy; out tells copyout from the fault handler.
    method PrivateCopy(t: Asid, v: nat, ghost out: Option<Write>) returns (failed: bool)
      requires Inv(Now()) && Ready(Now(), t, CowNeed(v, out))
      modifies this
      ensures failed <==> old(free) == []
      ensures failed ==> Now() == old(Now())
      ensures !failed ==> Inv(Now()) && Abs(Now()) == old(Abs(Now()))
      ensures !failed ==>
        threads == old(threads)[t := Thread(if out.None? then Idle else CopyBytes(v, out.value, true), NoSub)]
      ensures !failed ==>
        && Slot(t, v) in old(pt)
        && pt == old(pt)[Slot(t, v) := Pte(old(free)[0], old(pt)[Slot(t, v)].perm.(w := true), false)]
      ensures !failed ==> sz == old(sz) && bytes == old(bytes) && zombies == old(zombies) && kern == old(kern)
    {
      hide Inv, Abs;
      var fresh_ := CopyOf(t, v, out);
      if fresh_.None? {
        return true;
      }
      ghost var th := Thread(if out.None? then Idle else CopyBytes(v, out.value, true), NoSub);
      Exchange(t, v, fresh_.value, out);
      assert old(threads)[t := th] == threads;
      failed := false;
    }

    // kalloc and memmove
    method CopyOf(t: Asid, v: nat, ghost out: Option<Write>) returns (fresh_: Option<Page>)
      requires Inv(Now()) && Ready(Now(), t, CowNeed(v, out))
      modifies `free, `ref, `mem, `threads
      ensures fresh_.None? <==> old(free) == []
      ensures fresh_.None? ==> Now() == old(Now())
      ensures fresh_.Some? ==>
        && Inv(Now()) && Abs(Now()) == old(Abs(Now())) && !panicked && fresh_.value == old(free)[0]
        && threads == old(threads)[t := Thread(CowCopied(v, fresh_.value, out), NoSub)]
      ensures fresh_.Some? ==>
        && Slot(t, v) in pt && pt[Slot(t, v)].pa in old(mem) && fresh_.value in mem
        && mem[fresh_.value] == old(mem)[pt[Slot(t, v)].pa]
    {
      hide Inv, Abs;
      ghost var s0 := Now();
      fresh_ := Kalloc();
      if fresh_.None? {
        return;
      }
      AllocSteps(s0, t);
      SharedNotFree(s0, t);
      threads := threads[t := Thread(CowHave(v, fresh_.value, out), NoSub)];
      assert Now() == Allocated(s0, t);
      CopySteps(Now(), t);
      ghost var s1 := Now();
      mem := mem[fresh_.value := mem[pt[Slot(t, v)].pa]];
      threads := threads[t := Thread(CowCopied(v, fresh_.value, out), NoSub)];
      assert Now() == DoCopyPage(s1, t);
      NotStuck(Now());
    }

    // uvmunmap of the shared page, and mappages of the copy in its place
    method Exchange(t: Asid, v: nat, fresh_: Page, ghost out: Option<Write>)
      requires Inv(Now()) && Ready(Now(), t, CowCopied(v, fresh_, out))
      modifies `free, `ref, `mem, `pt, `threads, `panicked
      ensures Inv(Now()) && Abs(Now()) == old(Abs(Now()))
      ensures Slot(t, v) in old(pt)
      ensures pt == old(pt)[Slot(t, v) := Pte(fresh_, old(pt)[Slot(t, v)].perm.(w := true), false)]
      ensures threads == old(threads)[t := Thread(if out.None? then Idle else CopyBytes(v, out.value, true), NoSub)]
    {
      hide Inv, Abs, FreeTarget;
      ghost var s2 := Now();
      SharedTarget(s2, t);
      FreeSteps(s2, t);
      var pte := pt[Slot(t, v)];
      Kfree(pte.pa);
      pt := pt[Slot(t, v) := Pte(fresh_, pte.perm.(w := true), false)];
      threads := threads[t := Thread(if out.None? then Idle else CopyBytes(v, out.value, true), NoSub)];
      assert Now() == Freed(s2, t, pte.pa);
    }

    // The COW branch of usertrap, for byte off of page v.
    method CowFault(t: Asid, v: nat, off: nat) returns (killed: bool)
      requires Inv(Now()) && CanFault(Now(), t, v, off)
      modifies this
      ensures Inv(Now())
      ensures killed <==> old(free) == [] && old(ref[pt[Slot(t, v)].pa]) > 1
      ensures killed ==> Abs(Now()) == old(Abs(Now())) - {t}
      ensures !killed ==> Abs(Now()) == old(Abs(Now())) && Ready(Now(), t, Idle) && sz == old(sz)
      ensures !killed ==>
        Slot(t, v) in pt && pt[Slot(t, v)].perm == old(pt[Slot(t, v)].perm.(w := true)) && !pt[Slot(t, v)].cow
    {
      hide Inv, Abs;
      ghost var s0 := Now();
      KeepFault(s0, t, v, off);
      SeeFault(s0, t, v, off);
      IdlePositive(s0, t, v);
      var pa, flags := pt[Slot(t, v)].pa, pt[Slot(t, v)].perm.(w := true);
      if ref[pa] > 1 {
        threads := threads[t := Thread(CowNeed(v, None), NoSub)];
        killed := PrivateCopy(t, v, None);
        if killed {
          ghost var s1 := Now();
          KeepPopFail(s1, t);
          SeeDie(s1, t);
          threads, zombies := threads - {t}, zombies + {t};
          return;
        }
      } else {
        threads := threads[t := Thread(CowSole(v), NoSub)];
        ghost var s1 := Now();
        KeepTakeSole(s1, t);
        SeeTakeSole(s1, t);
        pt := pt[Slot(t, v) := Pte(pa, flags, false)];
        threads := threads[t := Thread(Idle, NoSub)];
        assert Now() == DoTakeSole(s1, t);
      }
      NotStuck(Now());
      killed := false;
    }

    // A user store: retried after each fault the handler resolves, killed otherwise.
    method Store(t: Asid, v: nat, off: nat, b: int) returns (faults: nat, done: bool)
      requires Inv(Now()) && Ready(Now(), t, Idle) && off < PGSIZE
      modifies this
      ensures Inv(Now()) && faults <= 2
      ensures done <==> old(Lands(Now(), t, v, off))
      ensures done ==>
        && AEnabled(old(Abs(Now())), AStore(t, v, off, b))
        && Abs(Now()) == ADo(old(Abs(Now())), AStore(t, v, off, b))
      ensures done ==>
        && Slot(t, v) in pt
        && forall x :: x in pt && x != Slot(t, v) && !Stale(Now(), x) ==> pt[x].pa != pt[Slot(t, v)].pa
      ensures !done ==> Abs(Now()) == old(Abs(Now())) - {t}
    {
      hide Inv, Abs, AEnabled;
      faults, done := 0, false;
      ghost var s0 := Now();
      SizeOf(s0, t);
      if Slot(t, v) in pt && !pt[Slot(t, v)].perm.w && pt[Slot(t, v)].cow && v * PGSIZE + off < bytes[t] {
        faults := 1;
        MappedInMem(s0, Slot(t, v));
        IdlePositive(s0, t, v);
        var killed := CowFault(t, v, off);
        if killed {
          return;
        }
      }
      if Slot(t, v) in pt && pt[Slot(t, v)].perm.u && pt[Slot(t, v)].perm.w {
        ghost var s1 := Now();
        MappedInMem(s1, Slot(t, v));
        MemLengths(s1);
        OwnStore(s1, t, v, off, b);
        SeeStore(s1, t, v, off, b);
        var pa := pt[Slot(t, v)].pa;
        mem := mem[pa := mem[pa][off := b]];
        OnlyMapping(s1, Now(), t, v);
        done := true;
      } else {
        // the handler does not recognise the fault: setkilled, then exit
        faults := faults + 1;
        ghost var s1 := Now();
        KeepDie(s1, t);
        SeeDie(s1, t);
        threads, zombies := threads - {t}, zombies + {t};
      }
    }

    // Copy bytes from the kernel to user addresses dstva.. of process t.
    method Copyout(t: Asid, dstva: nat, src: Data) returns (ok: bool)
      requires Inv(Now()) && Ready(Now(), t, Idle)
      modifies this
      ensures Inv(Now()) && Ready(Now(), t, Idle)
      ensures ok && old(MayWrite(Now(), t, dstva, |src|)) ==> Wrote(old(Abs(Now())), Abs(Now()), t, dstva, src)
      ensures !ok && old(MayWrite(Now(), t, dstva, |src|)) ==>
        && (exists k :: 0 <= k < |src| && Wrote(old(Abs(Now())), Abs(Now()), t, dstva, src[..k]))
        && (free == [] || exists v: nat :: Touched(dstva, |src|, v) && (v in old(Abs(Now()))[t] ==>
              !old(Abs(Now()))[t][v].perm.u))
    {
      hide Inv, Abs, Wrote;
      ghost var a0, may := Abs(Now()), MayWrite(Now(), t, dstva, |src|);
      var done := 0;
      assert src[..0] == [];
      WroteNothing(a0, t, dstva);
      while done < |src|
        invariant done <= |src| && Inv(Now()) && Ready(Now(), t, Idle)
        invariant done < |src| && done > 0 ==> (dstva + done) % PGSIZE == 0
        invariant may ==> Wrote(a0, Abs(Now()), t, dstva, src[..done])
      {
        var va := dstva + done;
        var v, off := va / PGSIZE, va % PGSIZE;
        var n := if PGSIZE - off < |src| - done then PGSIZE - off else |src| - done;
        ghost var s0 := Now();
        if may {
          WroteKeeps(a0, Abs(s0), t, dstva, src[..done]);
        }
        SeenPages(s0, t, v);
        assert Touched(dstva, |src|, v);
        if Slot(t, v) !in pt || !pt[Slot(t, v)].perm.u {
          return false;
        }
        var f := Write(off, src[done..done + n]);
        var failed := CopyoutPage(t, v, f);
        if failed {
          return false;
        }
        assert src[..done] + src[done..done + n] == src[..done + n];
        if may {
          PageWrote(Abs(s0), Abs(Now()), t, va, v, f);
          WroteMore(a0, Abs(s0), Abs(Now()), t, dstva, src[..done], src[done..done + n]);
        }
        done := done + n;
      }
      assert src[..done] == src;
      ok := true;
    }

    // fork: uvmcopy shares every page of t with the new process c.  tables(i) is the number
    // of page-table pages that mappages has to allocate for page i.
    method Fork(t: Asid, c: Asid, tables: nat -> nat) returns (ok: bool)
      requires Inv(Now()) && Ready(Now(), t, Idle) && c !in sz
      modifies this
      ensures Inv(Now())
      ensures ok ==> t in old(Abs(Now())) && Abs(Now()) == old(Abs(Now()))[c := old(Abs(Now()))[t]]
      ensures ok ==> Ready(Now(), t, Idle) && Ready(Now(), c, Idle)
      ensures ok ==> t in old(bytes) && bytes == old(bytes)[c := old(bytes)[t]]
      ensures !ok ==> Abs(Now()) == old(Abs(Now())) && threads == old(threads) && sz == old(sz) && kern == old(kern)
    {
      hide Inv, Abs, Taken;
      ghost var s0 := Now();
      SizeOf(s0, t);
      StartFork(t, c);
      var i, taken;
      ok, i, taken := Uvmcopy(t, c, tables);
      if ok {
        FinishFork(t, c, i);
      } else {
        Undo(t, c, i, taken, s0.kern);
        assert threads == s0.threads;
        assert sz == s0.sz;
      }
    }

    // uvmcopy's loop: page by page, up to the first that mappages cannot map.
    method Uvmcopy(t: Asid, c: Asid, tables: nat -> nat) returns (ok: bool, i: nat, taken: seq<Page>)
      requires Inv(Now()) && Ready(Now(), t, Op.Fork(c, 0, Start))
      modifies this
      ensures Inv(Now()) && Abs(Now()) == old(Abs(Now())) && !panicked && Taken(old(kern), taken, kern)
      ensures sz == old(sz) && bytes == old(bytes) && zombies == old(zombies)
      ensures threads == old(threads)[t := Thread(if ok then Op.Fork(c, i, Start) else Unmap(c, 0, i, Delete), NoSub)]
      ensures ok ==> i == sz[t]
    {
      hide Inv, Abs, Taken;
      ghost var s0 := Now();
      FreshTaken(kern);
      i, taken, ok := 0, [], true;
      while i < sz[t]
        invariant Inv(Now()) && Abs(Now()) == Abs(s0) && !panicked && Taken(s0.kern, taken, kern)
        invariant i <= s0.sz[t] && threads == s0.threads[t := Thread(Op.Fork(c, i, Start), NoSub)]
        invariant sz == s0.sz && bytes == s0.bytes && zombies == s0.zombies && ok
      {
        ok, taken := ForkPage(t, c, i, tables(i), taken, s0.kern);
        if !ok {
          return;
        }
        i := i + 1;
      }
    }

    method StartFork(t: Asid, c: Asid)
      requires Inv(Now()) && Ready(Now(), t, Idle) && c !in sz
      modifies `sz, `bytes, `threads
      ensures Inv(Now()) && Abs(Now()) == old(Abs(Now())) && !panicked
      ensures sz == old(sz)[c := 0] && bytes == old(bytes)[c := 0]
      ensures threads == old(threads)[t := Thread(Op.Fork(c, 0, Start), NoSub)]
    {
      hide Inv, Abs;
      ghost var s0 := Now();
      KeepForkStart(s0, t, c);
      SeeForkStart(s0, t, c);
      sz, bytes := sz[c := 0], bytes[c := 0];
      threads := threads[t := Thread(Op.Fork(c, 0, Start), NoSub)];
      NotStuck(Now());
    }

    // The child is complete and becomes runnable.
    method FinishFork(t: Asid, c: Asid, ghost i: nat)
      requires Inv(Now()) && Ready(Now(), t, Op.Fork(c, i, Start)) && i == sz[t] && c in sz
      modifies `sz, `bytes, `threads
      ensures Inv(Now()) && t in old(Abs(Now())) && Abs(Now()) == old(Abs(Now()))[c := old(Abs(Now()))[t]]
      ensures Ready(Now(), t, Idle) && Ready(Now(), c, Idle)
      ensures t in old(bytes) && bytes == old(bytes)[c := old(bytes)[t]]
    {
      hide Inv, Abs;
      ghost var s1 := Now();
      SizeOf(s1, t);
      KeepForkDone(s1, t);
      SeeForkDone(s1, t);
      sz, bytes := sz[c := sz[t]], bytes[c := bytes[t]];
      threads := threads[t := Thread(Idle, NoSub)][c := Thread(Idle, NoSub)];
      assert Now() == DoForkDone(s1, t);
      NotStuck(Now());
    }

    // One iteration of uvmcopy.
    method ForkPage(t: Asid, c: Asid, i: nat, need: nat, taken: seq<Page>, ghost kern0: set<Page>) returns (ok: bool,
                    taken': seq<Page>)
      requires Inv(Now()) && Ready(Now(), t, Op.Fork(c, i, Start)) && i < sz[t] && Taken(kern0, taken, kern)
      modifies this
      ensures Inv(Now()) && Abs(Now()) == old(Abs(Now())) && Taken(kern0, taken', kern)
      ensures sz == old(sz) && bytes == old(bytes) && zombies == old(zombies) && !panicked
      ensures ok ==> threads == old(threads)[t := Thread(Op.Fork(c, i + 1, Start), NoSub)]
      ensures !ok ==> threads == old(threads)[t := Thread(Unmap(c, 0, i, Delete), NoSub)]
    {
      hide Inv, Abs, Taken;
      Protect(t, c, i);
      ok, taken' := TakeTables(t, c, i, need, taken, kern0);
      if !ok {
        return;
      }
      MapShared(t, c, i);
    }

    // The parent's PTE loses PTE_W and, if it had it, gains PTE_COW.
    method Protect(t: Asid, c: Asid, i: nat)
      requires Inv(Now()) && Ready(Now(), t, Op.Fork(c, i, Start)) && i < sz[t]
      modifies `pt, `threads
      ensures Inv(Now()) && Abs(Now()) == old(Abs(Now())) && !panicked
      ensures Slot(t, i) in old(pt) && pt == old(pt)[Slot(t, i) := Shared(old(pt)[Slot(t, i)])]
      ensures threads == old(threads)[t := Thread(Op.Fork(c, i, Protected), NoSub)]
    {
      hide Inv, Abs;
      ghost var s0 := Now();
      KeepForkProtect(s0, t);
      SeeForkProtect(s0, t);
      NotStuck(DoForkProtect(s0, t));
      pt := pt[Slot(t, i) := Shared(pt[Slot(t, i)])];
      threads := threads[t := Thread(Op.Fork(c, i, Protected), NoSub)];
    }

    // mappages installs the child's PTE, then the count goes up.
    method MapShared(t: Asid, c: Asid, i: nat)
      requires Inv(Now()) && Ready(Now(), t, Op.Fork(c, i, Protected)) && Slot(t, i) in pt
      modifies `pt, `threads, `ref
      ensures Inv(Now()) && Abs(Now()) == old(Abs(Now()))
      ensures threads == old(threads)[t := Thread(Op.Fork(c, i + 1, Start), NoSub)]
    {
      hide Inv, Abs;
      ghost var s2 := Now();
      KeepForkMap(s2, t);
      SeeForkMap(s2, t);
      NotStuck(DoForkMap(s2, t));
      pt := pt[Slot(c, i) := pt[Slot(t, i)]];
      threads := threads[t := Thread(Op.Fork(c, i, Mapped), NoSub)];
      CountShared(t, c, i);
    }

    method CountShared(t: Asid, c: Asid, i: nat)
      requires Inv(Now()) && Ready(Now(), t, Op.Fork(c, i, Mapped)) && Slot(t, i) in pt
      modifies `threads, `ref
      ensures Inv(Now()) && Abs(Now()) == old(Abs(Now()))
      ensures threads == old(threads)[t := Thread(Op.Fork(c, i + 1, Start), NoSub)]
    {
      hide Inv, Abs;
      ghost var s3 := Now();
      ForkIncReady(s3, t);
      KeepForkInc(s3, t);
      SeeForkInc(s3, t);
      var pa := pt[Slot(t, i)].pa;
      ref := ref[pa := ref[pa] + 1];
      threads := threads[t := Thread(Op.Fork(c, i + 1, Start), NoSub)];
      assert Now() == DoForkInc(s3, t);
    }

    // mappages allocates the table pages it needs; without memory uvmcopy starts to unwind.
    method TakeTables(t: Asid, c: Asid, i: nat, need: nat, taken: seq<Page>, ghost kern0: set<Page>) returns (ok: bool,
                      taken': seq<Page>)
      requires Inv(Now()) && Ready(Now(), t, Op.Fork(c, i, Protected)) && Taken(kern0, taken, kern)
      modifies this
      ensures Inv(Now()) && Abs(Now()) == old(Abs(Now())) && Taken(kern0, taken', kern)
      ensures sz == old(sz) && bytes == old(bytes) && zombies == old(zombies) && pt == old(pt) && !panicked
      ensures threads == old(threads)[t := Thread(if ok then Op.Fork(c, i, Protected) else Unmap(c, 0, i, Delete),
        NoSub)]
    {
      hide Inv, Abs, Taken;
      taken' := taken;
      ghost var s0 := Now();
      var k := 0;
      while k < need
        invariant Inv(Now()) && Abs(Now()) == Abs(s0) && !panicked && Taken(kern0, taken', kern)
        invariant threads == s0.threads && sz == s0.sz && bytes == s0.bytes && zombies == s0.zombies && pt == s0.pt
      {
        ghost var s1 := Now();
        var pg := Kalloc();
        if pg.None? {
          KeepPopFail(s1, t);
          SeePopFail(s1, t);
          threads := threads[t := Thread(Unmap(c, 0, i, Delete), NoSub)];
          NotStuck(Now());
          return false, taken';
        }
        TableSteps(s1, t);
        TakenMore(kern0, taken', kern, pg.value);
        kern := kern + {pg.value};
        taken' := taken' + [pg.value];
        assert threads == threads[t := Thread(Op.Fork(c, i, Protected), NoSub)];
        assert Now() == TableTaken(s1, t);
        k := k + 1;
      }
      assert threads == threads[t := Thread(Op.Fork(c, i, Protected), NoSub)];
      ok := true;
    }

    // A failed fork: uvmunmap the pages copied so far, then free the page table.
    method Undo(t: Asid, c: Asid, i: nat, taken: seq<Page>, ghost kern0: set<Page>)
      requires Inv(Now()) && Ready(Now(), t, Unmap(c, 0, i, Delete)) && Taken(kern0, taken, kern)
      modifies this
      ensures Inv(Now()) && Abs(Now()) == old(Abs(Now())) && kern == kern0
      ensures threads == old(threads)[t := Thread(Idle, NoSub)] && sz == old(sz) - {c}
    {
      hide Inv, Abs, Taken;
      Uvmunmap(c, 0, i, t);
      ghost var s1 := Now();
      NotStuck(s1);
      KeepUnmapDone(s1, t);
      SeeUnmapDone(s1, t);
      sz, bytes := sz - {c}, bytes - {c};
      threads := threads[t := Thread(Idle, NoSub)];
      NotStuck(Now());
      FreeTables(t, taken, kern0);
    }

    // freewalk of the child's table pages
    method FreeTables(t: Asid, taken: seq<Page>, ghost kern0: set<Page>)
      requires Inv(Now()) && Ready(Now(), t, Idle) && Taken(kern0, taken, kern)
      modifies `free, `ref, `mem, `kern, `panicked
      ensures Inv(Now()) && Abs(Now()) == old(Abs(Now())) && kern == kern0
    {
      hide Inv, Abs, Taken;
      var k := |taken|;
      assert taken[..k] == taken;
      while k > 0
        invariant 0 <= k <= |taken| && Taken(kern0, taken[..k], kern)
        invariant Inv(Now()) && Abs(Now()) == old(Abs(Now()))
        decreases k
      {
        k := k - 1;
        ghost var s2 := Now();
        NotStuck(s2);
        TakenLess(kern0, taken, k, kern);
        TableFreeSteps(s2, t, taken[k]);
        Kfree(taken[k]);
        kern := kern - {taken[k]};
        assert threads == threads[t := Thread(Idle, NoSub)];
        assert Now() == TableFreed(s2, t, taken[k]);
      }
      NoneTaken(kern0, taken[..0], kern);
    }

    // One iteration of copyout's loop.
    method CopyoutPage(t: Asid, v: nat, f: Write) returns (failed: bool)
      requires Inv(Now()) && Ready(Now(), t, Idle) && Slot(t, v) in pt && pt[Slot(t, v)].perm.u
      requires f.off + |f.bytes| <= PGSIZE
      modifies this
      ensures Inv(Now()) && Ready(Now(), t, Idle)
      ensures failed ==> free == [] && Abs(Now()) == old(Abs(Now()))
      ensures !failed && old(Seen(pt[Slot(t, v)]).w) ==>
        AEnabled(old(Abs(Now())), ACopyout(t, v, f)) && Abs(Now()) == ADo(old(Abs(Now())), ACopyout(t, v, f))
    {
      hide Inv, Abs, AEnabled, ADo;
      ghost var s0 := Now();
      MappedInMem(s0, Slot(t, v));
      IdlePositive(s0, t, v);
      KeepCopyoutStart(s0, t, v, f);
      SeeCopyoutStart(s0, t, v, f);
      if pt[Slot(t, v)].cow {
        threads := threads[t := Thread(CowNeed(v, Some(f)), NoSub)];
        failed := PrivateCopy(t, v, Some(f));
        if failed {
          ghost var s1 := Now();
          KeepPopFail(s1, t);
          SeePopFail(s1, t);
          threads := threads[t := Thread(Idle, NoSub)];
          NotStuck(Now());
          return;
        }
      } else {
        threads := threads[t := Thread(CopyBytes(v, f, pt[Slot(t, v)].perm.w), NoSub)];
      }
      ghost var s2 := Now();
      NotStuck(s2);
      MappedInMem(s2, Slot(t, v));
      MemLengths(s2);
      KeepCopyoutBytes(s2, t);
      if s2.threads[t].op.rw {
        CopyoutGuarded(s2, t);
        CopyoutExact(s2, t);
      }
      var pa := pt[Slot(t, v)].pa;
      mem := mem[pa := Splice(mem[pa], f)];
      threads := threads[t := Thread(Idle, NoSub)];
      assert Now() == DoCopyoutBytes(s2, t);
      NotStuck(Now());
      failed := false;
    }
  }

  // ----- fork -----

  // now holds the kernel pages of before plus the distinct pages of taken.
  ghost predicate Taken(before: set<Page>, taken: seq<Page>, now: set<Page>)
  {
    && now == before + (set pg | pg in taken)
    && (forall i :: 0 <= i < |taken| ==> taken[i] !in before)
    && (forall i, j :: 0 <= i < j < |taken| ==> taken[i] != taken[j])
  }

  lemma TakenLess(before: set<Page>, taken: seq<Page>, k: nat, now: set<Page>)
    requires k < |taken| && Taken(before, taken[..k + 1], now)
    ensures taken[k] in now && Taken(before, taken[..k], now - {taken[k]})
  {
    assert taken[..k + 1] == taken[..k] + [taken[k]];
    assert taken[..k + 1][k] == taken[k];
    forall i | 0 <= i < k ensures taken[..k][i] == taken[..k + 1][i] {
    }
  }

  lemma FreshTaken(now: set<Page>)
    ensures Taken(now, [], now)
  {
  }

  lemma NoneTaken(before: set<Page>, taken: seq<Page>, now: set<Page>)
    requires Taken(before, taken, now) && taken == []
    ensures now == before
  {
  }

  lemma TakenMore(before: set<Page>, taken: seq<Page>, now: set<Page>, pg: Page)
    requires Taken(before, taken, now) && pg !in now
    ensures Taken(before, taken + [pg], now + {pg})
  {
  }

  lemma ForkIncReady(s: State, t: Asid)
    requires Inv(s) && InFork(s, t, Mapped) && Slot(t, s.threads[t].op.i) in s.pt
    ensures CanForkInc(s, t)
  {
    hide Inv;
    MappedInMem(s, Slot(t, s.threads[t].op.i));
  }

  // mappages needs a page for the child's page table.
  function TableTaken(s: State, t: Asid): State
    requires t in s.threads && s.free != []
  {
    var pg := s.free[0];
    At(s.(free := s.free[1..], mem := s.mem[pg := Fill(5)], ref := s.ref[pg := 1], kern := s.kern + {pg}),
       t, s.threads[t].op, NoSub)
  }

  lemma TableSteps(s: State, t: Asid)
    requires Inv(s) && CanPop(s, t, ToKernel)
    ensures Inv(TableTaken(s, t)) && Abs(TableTaken(s, t)) == Abs(s) && s.free[0] !in s.kern
  {
    hide Inv, Abs;
    FreeNotKernel(s);
    var s1 := DoPop(s, t, ToKernel);
    KeepPop(s, t, ToKernel);
    SeePop(s, t, ToKernel);
    KeepSetRef(s1, t);
    SeeSetRef(s1, t);
    assert TableTaken(s, t) == DoSetRef(s1, t);
  }

  lemma FreeNotKernel(s: State)
    requires Inv(s) && s.free != []
    ensures s.free[0] !in s.kern
  {
    hide Workers, Spans, Ops, Sharing, Private;
    assert s.free[0] in s.free;
  }

  function TableFreed(s: State, t: Asid, pg: Page): State
    requires t in s.threads
  {
    At(s.(kern := s.kern - {pg}, ref := s.ref[pg := 0], mem := s.mem[pg := Fill(1)], free := [pg] + s.free),
       t, s.threads[t].op, NoSub)
  }

  // freewalk gives a table page back.
  lemma TableFreeSteps(s: State, t: Asid, pg: Page)
    requires Inv(s) && Ready(s, t, Idle) && pg in s.kern
    ensures pg in s.ref && pg in s.mem && s.ref[pg] == 1
    ensures Inv(TableFreed(s, t, pg)) && Abs(TableFreed(s, t, pg)) == Abs(s)
  {
    hide Inv, Abs, AfterFree, FreeTarget;
    KernelCount(s, pg);
    KeepKernFree(s, t, pg);
    SeeKernFree(s, t, pg);
    var s1 := DoKernFree(s, t, pg);
    KeepFreeDec(s1, t);
    SeeFreeDec(s1, t);
    var s2 := DoFreeDec(s1, t);
    KeepFreePush(s2, t);
    SeeFreePush(s2, t);
    assert DoFreePush(s2, t) == TableFreed(s, t, pg);
  }

  lemma KernelCount(s: State, pg: Page)
    requires Inv(s) && pg in s.kern
    ensures pg in s.ref && pg in s.mem && s.ref[pg] == 1
  {
    hide Workers, Spans, Ops, Exact, Lists, Sharing;
  }

  // Page v holds some of the addresses va .. va + n.
  predicate Touched(va: nat, n: nat, v: nat)
  {
    v * PGSIZE < va + n && va < (v + 1) * PGSIZE
  }

  // The user pages in the range are writable, be it by copy-on-write.
  ghost predicate MayWrite(s: State, t: Asid, dstva: nat, n: nat)
  {
    t in Abs(s) && forall v :: v in Abs(s)[t] && Touched(dstva, n, v) && Abs(s)[t][v].perm.u ==> Abs(s)[t][v].perm.w
  }

  // a' is a with the bytes at addresses va.. of process t replaced, and nothing else.
  ghost predicate Wrote(a: AState, a': AState, t: Asid, va: nat, bytes: Data)
  {
    && a'.Keys == a.Keys
    && (forall p :: p in a ==> a'[p].Keys == a[p].Keys)
    && (forall p, v :: p in a && v in a[p] ==> a'[p][v].perm == a[p][v].perm && |a'[p][v].data| == |a[p][v].data|)
    && (forall p, v, off: nat :: p in a && v in a[p] && off < |a[p][v].data| ==>
          a'[p][v].data[off] == NewByte(a, t, va, bytes, p, v, off))
  }

  function NewByte(a: AState, t: Asid, va: nat, bytes: Data, p: Asid, v: nat, off: nat): int
    requires p in a && v in a[p] && off < |a[p][v].data|
  {
    if p == t && va <= v * PGSIZE + off < va + |bytes| then bytes[v * PGSIZE + off - va] else a[p][v].data[off]
  }

  lemma WroteNothing(a: AState, t: Asid, va: nat)
    ensures Wrote(a, a, t, va, [])
  {
  }

  lemma WroteKeeps(a: AState, a': AState, t: Asid, va: nat, bytes: Data)
    requires Wrote(a, a', t, va, bytes) && t in a
    ensures t in a' && a'[t].Keys == a[t].Keys && forall v :: v in a[t] ==> a'[t][v].perm == a[t][v].perm
  {
  }

  lemma WroteMore(a: AState, b: AState, c: AState, t: Asid, va: nat, x: Data, y: Data)
    requires Wrote(a, b, t, va, x) && Wrote(b, c, t, va + |x|, y)
    ensures Wrote(a, c, t, va, x + y)
  {
    forall p, v, off: nat | p in a && v in a[p] && off < |a[p][v].data|
      ensures c[p][v].data[off] == NewByte(a, t, va, x + y, p, v, off)
    {
      assert b[p][v].data[off] == NewByte(a, t, va, x, p, v, off);
      assert c[p][v].data[off] == NewByte(b, t, va + |x|, y, p, v, off);
    }
  }

  lemma PageWrote(a: AState, b: AState, t: Asid, va: nat, v: nat, f: Write)
    requires AEnabled(a, ACopyout(t, v, f)) && b == ADo(a, ACopyout(t, v, f))
    requires va == v * PGSIZE + f.off && f.off + |f.bytes| <= PGSIZE
    requires forall p, u :: p in a && u in a[p] ==> |a[p][u].data| <= PGSIZE
    ensures Wrote(a, b, t, va, f.bytes)
  {
    forall p, u, off: nat | p in a && u in a[p] && off < |a[p][u].data|
      ensures b[p][u].data[off] == NewByte(a, t, va, f.bytes, p, u, off)
    {
      if p == t && u == v {
        assert b[p][u].data == Splice(a[p][u].data, f);
      }
    }
  }

  lemma SeenPages(s: State, t: Asid, v: nat)
    requires Inv(s) && Ready(s, t, Idle)
    ensures t in Abs(s) && (v in Abs(s)[t] <==> Slot(t, v) in s.pt)
    ensures v in Abs(s)[t] ==> Abs(s)[t][v].perm == Seen(s.pt[Slot(t, v)])
    ensures forall p, u :: p in Abs(s) && u in Abs(s)[p] ==> |Abs(s)[p][u].data| <= PGSIZE
  {
    hide Inv, Shape, Workers, OpOk, SubOk;
    Prepare(s, t);
    MemLengths(s);
    if Slot(t, v) in s.pt {
      IdleBelow(s, t, v);
      MappedInMem(s, Slot(t, v));
    } else {
      assert !OwnPage(Idle, s.sz[t], v);
    }
  }

  // The byte stored by an idle process goes to a page that only stale PTEs may still share.
  lemma OnlyMapping(s: State, s': State, t: Asid, v: nat)
    requires Inv(s) && Ready(s, t, Idle) && Slot(t, v) in s.pt && s.pt[Slot(t, v)].perm.w
    requires s'.pt == s.pt && s'.threads == s.threads
    ensures forall x :: x in s.pt && x != Slot(t, v) && !Stale(s', x) ==> s.pt[x].pa != s.pt[Slot(t, v)].pa
  {
    hide Spans, Ownership, Sizes;
    OwnSlot(s, t, v);
    hide Inv;
    SoleWritable(s, Slot(t, v));
  }

  // A store succeeds, after a fault or at once: user page, and writable, or copy-on-write with the
  // address below p->sz and a page to be had if the present one is shared.
  predicate Lands(s: State, t: Asid, v: nat, off: nat)
  {
    && Slot(t, v) in s.pt && s.pt[Slot(t, v)].perm.u
    && (|| s.pt[Slot(t, v)].perm.w
        || (&& s.pt[Slot(t, v)].cow && t in s.bytes && v * PGSIZE + off < s.bytes[t]
            && (s.free != [] || (s.pt[Slot(t, v)].pa in s.ref && s.ref[s.pt[Slot(t, v)].pa] == 1))))
  }

  // With memory free, a store to a user page that fork has shared lands exactly below p->sz, while
  // the eager machine performs it anywhere in the page.
  lemma CowStoreExact(s: State, t: Asid, v: nat, off: nat, b: int)
    requires Inv(s) && Ready(s, t, Idle) && off < PGSIZE && s.free != []
    requires Slot(t, v) in s.pt && s.pt[Slot(t, v)].perm.u && s.pt[Slot(t, v)].cow
    ensures AEnabled(Abs(s), AStore(t, v, off, b))
    ensures t in s.bytes && (Lands(s, t, v, off) <==> v * PGSIZE + off < s.bytes[t])
  {
    hide Inv, Shape, Workers, OpOk, SubOk;
    Prepare(s, t);
    SizeOf(s, t);
    MemLengths(s);
    IdleBelow(s, t, v);
    MappedInMem(s, Slot(t, v));
    CowReadOnly(s, Slot(t, v));
    assert Abs(s)[t] == View(s, t) && View(s, t)[v] == PageAt(s, Slot(t, v));
  }

  lemma CowReadOnly(s: State, sl: Slot)
    requires Inv(s) && sl in s.pt && s.pt[sl].cow
    ensures !s.pt[sl].perm.w
  {
    hide Workers, Spans, Ops, Ownership;
  }

  lemma UnmapTarget(s: State, t: Asid)
    requires t in s.threads && s.threads[t].op.Unmap? && FreeTarget(s, t, s.threads[t].op).Some?
    ensures var sl := Slot(s.threads[t].op.sp, s.threads[t].op.j);
      sl in s.pt && FreeTarget(s, t, s.threads[t].op) == Some(s.pt[sl].pa)
  {
  }

  lemma NotStuck(s: State)
    requires Inv(s)
    ensures !s.stuck && forall t :: t in s.threads ==> t in s.sz
  {
    hide Workers, Spans, Ops, Ownership;
  }
}
