/**
  The steps of fork, exit, wait, sleep, yield and the scheduler, one by one.
 */
module ProcEvents {
  import opened Optional
  import opened ProcTable
  import opened ProcSafety

  // What the invariant says about the process running on CPU c.
  lemma MyFacts(s: State, c: nat)
    requires Inv(s) && On(s, c)
    ensures !Switched(Pc(s, c)) && Fits(Mine(s, c)) && s.cpus[c].noff == Depth(Pc(s, c)) && s.cpus[c].sched.Idle?
    ensures s.cpus[c].noff > 0 ==> !s.cpus[c].intr
    ensures Mine(s, c).lock == Some(c) <==> HoldsLock(Me(s, c), Pc(s, c), Me(s, c))
    ensures s.wait == Some(c) <==> HoldsWait(Pc(s, c))
    ensures Forking(Pc(s, c)) ==> NewChild(s, Me(s, c), ChildOf(Pc(s, c)), Linked(Pc(s, c)))
    ensures Forking(Pc(s, c)) ==> (s.procs[ChildOf(Pc(s, c))].lock == Some(c) <==> Pc(s, c).ForkAlloc?)
    ensures Pc(s, c).WaitChild? ==> IsChild(s, Pc(s, c).k, Me(s, c)) && Pc(s, c).k != Me(s, c)
    ensures Pc(s, c).WaitChild? ==> s.procs[Pc(s, c).k].lock == Some(c)
    ensures Pc(s, c).ExitCrit? ==> Me(s, c) != INIT && forall k :: 0 <= k < Pc(s, c).k && k < |s.procs| ==>
      s.procs[k].parent != Some(Me(s, c))
    ensures LiveSlot(s, INIT)
  {
    var p := Me(s, c);
    assert s.procs[p].lock == Some(c) <==> CpuHolds(s, c, p);
    if Forking(Pc(s, c)) {
      assert NewChild(s, p, ChildOf(Pc(s, c)), Linked(Pc(s, c)));
      assert s.procs[ChildOf(Pc(s, c))].lock == Some(c) <==> CpuHolds(s, c, ChildOf(Pc(s, c)));
    }
    if Pc(s, c).WaitChild? {
      assert IsChild(s, Pc(s, c).k, p);
      assert s.procs[Pc(s, c).k].lock == Some(c) <==> CpuHolds(s, c, Pc(s, c).k);
    }
  }

  // ... and about any slot.
  lemma SlotFacts(s: State, q: nat)
    requires Inv(s) && q < |s.procs|
    ensures Fits(s.procs[q]) && !(s.procs[q].pc.InSched? && s.procs[q].pc.why.New?)
    ensures s.procs[q].parent.Some? ==>
      LiveSlot(s, s.procs[q].parent.value) && s.procs[q].parent.value != q && !s.procs[q].state.UNUSED?
    ensures q == INIT ==> s.procs[q].parent.None?
  {
  }

  lemma HeldHere(s: State, c: nat, q: nat)
    requires Inv(s) && On(s, c) && q < |s.procs|
    ensures s.procs[q].lock == Some(c) <==> HoldsLock(Me(s, c), Pc(s, c), q)
  {
    assert s.procs[q].lock == Some(c) <==> CpuHolds(s, c, q);
  }

  // wait frees a slot only after its process has left its CPU for good.
  lemma ReapedIsAway(s: State, c: nat)
    requires On(s, c) && Pc(s, c).WaitChild? && Pc(s, c).k < |s.procs| && s.procs[Pc(s, c).k].state.ZOMBIE? && Inv(s)
    ensures s.procs[Pc(s, c).k].pc == Away(Exiting)
    ensures forall d :: 0 <= d < |s.cpus| ==> s.cpus[d].running != Some(Pc(s, c).k)
  {
    hide Inv;
    var k := Pc(s, c).k;
    MyFacts(s, c);
    SlotFacts(s, k);
    forall d | 0 <= d < |s.cpus| ensures s.cpus[d].running != Some(k) {
      if s.cpus[d].running == Some(k) {
        MyFacts(s, d);
      }
    }
    RunningSomewhere(s, k);
  }

  lemma RunningSomewhere(s: State, p: nat)
    requires Inv(s) && p < |s.procs|
    ensures !Switched(s.procs[p].pc) ==> OnSome(s, p)
  {
  }

  predicate ForkEvent(e: Event)
  {
    e.Alloc? || e.AllocFail? || e.AllocDone? || e.LinkTake? || e.LinkDone? || e.ForkDone?
  }

  lemma AllocLocal(s: State, c: nat, e: Event)
    requires Inv(s) && On(s, c) && Ready(s, c, e) && (e.Alloc? || e.AllocFail? || e.AllocDone?)
    ensures var ch := ChangeOf(s, c, e); ch.q < |s.procs| && LocalOk(s, c, ch, WaitLock(s, c, e))
  {
    hide Inv;
    MyFacts(s, c);
    var ch := ChangeOf(s, c, e);
    SlotFacts(s, ch.q);
    HeldHere(s, c, ch.q);
  }

  lemma ForkLocal(s: State, c: nat, e: Event)
    requires Inv(s) && On(s, c) && Ready(s, c, e) && ForkEvent(e)
    ensures var ch := ChangeOf(s, c, e); ch.q < |s.procs| && LocalOk(s, c, ch, WaitLock(s, c, e))
  {
    hide Inv;
    if e.Alloc? || e.AllocFail? || e.AllocDone? {
      AllocLocal(s, c, e);
    } else {
      MyFacts(s, c);
      var ch := ChangeOf(s, c, e);
      SlotFacts(s, ch.q);
      HeldHere(s, c, ch.q);
    }
  }

  predicate WaitEvent(e: Event)
  {
    e.WaitTake? || e.WaitLook? || e.WaitSkip? || e.WaitFail? || e.WaitNone? || e.WaitSleep?
  }

  lemma WaitOwn(s: State, c: nat, e: Event)
    requires Inv(s) && On(s, c) && Ready(s, c, e) && (e.WaitTake? || e.WaitNone? || e.WaitSleep?)
    ensures var ch := ChangeOf(s, c, e); ch.q < |s.procs| && LocalOk(s, c, ch, WaitLock(s, c, e))
  {
    hide Inv;
    MyFacts(s, c);
  }

  lemma WaitLocal(s: State, c: nat, e: Event)
    requires Inv(s) && On(s, c) && Ready(s, c, e) && WaitEvent(e)
    ensures var ch := ChangeOf(s, c, e); ch.q < |s.procs| && LocalOk(s, c, ch, WaitLock(s, c, e))
  {
    hide Inv;
    if e.WaitTake? || e.WaitNone? || e.WaitSleep? {
      WaitOwn(s, c, e);
    } else {
      MyFacts(s, c);
      var ch := ChangeOf(s, c, e);
      SlotFacts(s, ch.q);
      HeldHere(s, c, ch.q);
    }
  }

  lemma OtherLocal(s: State, c: nat, e: Event)
    requires Inv(s) && On(s, c) && Ready(s, c, e) && !e.Swtch? && !e.WaitReap? && !ForkEvent(e) && !WaitEvent(e)
    ensures var ch := ChangeOf(s, c, e); ch.q < |s.procs| && LocalOk(s, c, ch, WaitLock(s, c, e))
  {
    hide Inv;
    MyFacts(s, c);
    var ch := ChangeOf(s, c, e);
    SlotFacts(s, ch.q);
    HeldHere(s, c, ch.q);
  }

  lemma ReapLocal(s: State, c: nat, e: Event)
    requires Inv(s) && On(s, c) && Ready(s, c, e) && e.WaitReap?
    ensures var ch := ChangeOf(s, c, e); ch.q < |s.procs| && LocalOk(s, c, ch, WaitLock(s, c, e))
  {
    hide Inv;
    MyFacts(s, c);
    ReapedIsAway(s, c);
  }

  lemma ForkFork(s: State, c: nat, e: Event)
    requires Inv(s) && On(s, c) && Ready(s, c, e) && ForkEvent(e)
    ensures var ch := ChangeOf(s, c, e); ch.q < |s.procs| && ForkOk(s, c, ch)
  {
    hide Inv;
    MyFacts(s, c);
    SlotFacts(s, ChangeOf(s, c, e).q);
  }

  lemma EventFork(s: State, c: nat, e: Event)
    requires Inv(s) && On(s, c) && Ready(s, c, e) && !e.Swtch?
    ensures var ch := ChangeOf(s, c, e); ch.q < |s.procs| && ForkOk(s, c, ch)
  {
    hide Inv;
    if ForkEvent(e) {
      ForkFork(s, c, e);
    } else {
      MyFacts(s, c);
      SlotFacts(s, ChangeOf(s, c, e).q);
    }
  }

  lemma ForkParent(s: State, c: nat, e: Event)
    requires Inv(s) && On(s, c) && Ready(s, c, e) && ForkEvent(e)
    ensures var ch := ChangeOf(s, c, e); ch.q < |s.procs| && ParentOk(s, c, ch, ProcStep(s, c, e))
  {
    hide Inv;
    MyFacts(s, c);
    SlotFacts(s, ChangeOf(s, c, e).q);
  }

  lemma EventParent(s: State, c: nat, e: Event)
    requires Inv(s) && On(s, c) && Ready(s, c, e) && !e.Swtch?
    ensures var ch := ChangeOf(s, c, e); ch.q < |s.procs| && ParentOk(s, c, ch, ProcStep(s, c, e))
  {
    hide Inv;
    if ForkEvent(e) {
      ForkParent(s, c, e);
    } else {
      MyFacts(s, c);
      SlotFacts(s, ChangeOf(s, c, e).q);
    }
  }

  lemma EventKin(s: State, c: nat, e: Event)
    requires Inv(s) && On(s, c) && Ready(s, c, e) && !e.Swtch?
    ensures var ch := ChangeOf(s, c, e); ch.q < |s.procs| && KinOk(s, c, ch)
  {
    hide Inv;
    MyFacts(s, c);
    SlotFacts(s, ChangeOf(s, c, e).q);
  }

  // ----- pids -----

  // Nothing that Pids speaks of changes in slot r.
  predicate SamePid(a: Proc, b: Proc)
  {
    b.pid == a.pid && (b.state.UNUSED? <==> a.state.UNUSED?) && (b.state.ZOMBIE? <==> a.state.ZOMBIE?)
  }

  lemma PidsSame(s: State, s': State)
    requires Pids(s) && |s'.procs| == |s.procs| && s'.nextpid == s.nextpid && s'.exited == s.exited
    requires s'.reaped == s.reaped
    requires forall r :: 0 <= r < |s.procs| ==> SamePid(s.procs[r], s'.procs[r]) || s'.procs[r].state.UNUSED?
    ensures Pids(s')
  {
  }

  lemma PidsOf(s: State)
    requires Inv(s)
    ensures Pids(s)
  {
  }

  lemma PidsQuiet(s: State, c: nat, e: Event)
    requires Inv(s) && On(s, c) && Ready(s, c, e) && !e.Swtch? && !e.Alloc? && !e.ExitDone? && !e.WaitReap?
    ensures Pids(ProcStep(s, c, e))
  {
    hide Inv, Pids;
    PidsOf(s);
    EventPids(s, c, e);
    hide ChangeOf;
    PidsSame(s, ProcStep(s, c, e));
  }

  lemma EventPids(s: State, c: nat, e: Event)
    requires On(s, c) && Ready(s, c, e) && !e.Swtch? && !e.Alloc? && !e.ExitDone? && !e.WaitReap? && Inv(s)
    ensures var ch := ChangeOf(s, c, e);
      && ch.q < |s.procs| && SamePid(Mine(s, c), ch.x)
      && (ch.q != Me(s, c) ==> SamePid(s.procs[ch.q], ch.y) || ch.y.state.UNUSED?)
  {
    hide Inv;
    MyFacts(s, c);
    SlotFacts(s, ChangeOf(s, c, e).q);
  }

  lemma PidsAlloc(s: State, c: nat, e: Event)
    requires Inv(s) && On(s, c) && Ready(s, c, e) && e.Alloc?
    ensures Pids(ProcStep(s, c, e))
  {
    hide Inv;
    PidsOf(s);
    MyFacts(s, c);
  }

  lemma PidsExit(s: State, c: nat, e: Event)
    requires Inv(s) && On(s, c) && Ready(s, c, e) && e.ExitDone?
    ensures Pids(ProcStep(s, c, e))
  {
    hide Inv;
    PidsOf(s);
    MyFacts(s, c);
  }

  // A pid is reaped once, and only after it exited.
  lemma PidsReap(s: State, c: nat, e: Event)
    requires Inv(s) && On(s, c) && Ready(s, c, e) && e.WaitReap?
    ensures Pids(ProcStep(s, c, e))
    ensures s.procs[Pc(s, c).k].pid in s.exited && s.procs[Pc(s, c).k].pid !in s.reaped
  {
    hide Inv;
    PidsOf(s);
    MyFacts(s, c);
    SlotFacts(s, Pc(s, c).k);
  }

  // ----- zombies -----

  lemma ZombiesKept(s: State, s': State)
    requires Zombies(s) && s.reaped <= s'.reaped
    requires forall p: nat, x: nat :: IsZombie(s, p, x) ==> IsZombie(s', p, x) || x in s'.reaped
    requires forall x :: x in s'.exited ==> x in s.exited || exists p: nat :: IsZombie(s', p, x)
    ensures Zombies(s')
  {
    forall x | x in s'.exited && x !in s'.reaped ensures exists p: nat :: IsZombie(s', p, x) {
      if x in s.exited {
        var p: nat :| IsZombie(s, p, x);
        assert IsZombie(s', p, x);
      }
    }
  }

  // A step leaves every zombie's slot alone, but for the one it reaps.
  lemma ZombieStays(s: State, c: nat, e: Event, p: nat, x: nat)
    requires Inv(s) && On(s, c) && Ready(s, c, e) && !e.Swtch? && IsZombie(s, p, x)
    ensures IsZombie(ProcStep(s, c, e), p, x) || x in ProcStep(s, c, e).reaped
  {
    hide Inv;
    MyFacts(s, c);
    SlotFacts(s, p);
    assert p != Me(s, c);
  }

  lemma EventZombies(s: State, c: nat, e: Event)
    requires Inv(s) && On(s, c) && Ready(s, c, e) && !e.Swtch?
    ensures Zombies(ProcStep(s, c, e))
  {
    hide Running, Depths, Masked, SlotLocks, WaitHeld, States, Forks, Parents, Kinship, Pids, Ready;
    var s' := ProcStep(s, c, e);
    forall p: nat, x: nat | IsZombie(s, p, x) ensures IsZombie(s', p, x) || x in s'.reaped {
      ZombieStays(s, c, e, p, x);
    }
    forall x | x in s'.exited ensures x in s.exited || exists p: nat :: IsZombie(s', p, x) {
      if e.ExitDone? {
        assert IsZombie(s', Me(s, c), Mine(s, c).pid);
      }
    }
    ZombiesKept(s, s');
  }

  // ----- a process step keeps everything -----

  lemma KeepProcStep(s: State, c: nat, e: Event)
    requires Inv(s) && On(s, c) && Ready(s, c, e) && !e.Swtch?
    ensures Inv(ProcStep(s, c, e))
  {
    hide Running, Depths, Masked, SlotLocks, WaitHeld, States, Forks, Parents, Kinship, Pids, Zombies, LocalOk, ForkOk,
      ParentOk, KinOk, ChangeOf, Ready;
    var ch, s' := ChangeOf(s, c, e), ProcStep(s, c, e);
    if e.WaitReap? {
      ReapLocal(s, c, e);
    } else if ForkEvent(e) {
      ForkLocal(s, c, e);
    } else if WaitEvent(e) {
      WaitLocal(s, c, e);
    } else {
      OtherLocal(s, c, e);
    }
    EventFork(s, c, e);
    EventParent(s, c, e);
    EventKin(s, c, e);
    RunningKept(s, c, ch, s');
    DepthsKept(s, c, ch, s');
    MaskedKept(s, c, ch, s');
    LocksKept(s, c, ch, s');
    WaitKept(s, c, ch, s');
    StatesKept(s, c, ch, s');
    ForksKept(s, c, ch, s');
    OtherIs(s, c, ch, s'.wait);
    ParentsKept(s, c, ch, s');
    KinshipKept(s, c, ch, s');
    EventZombies(s, c, e);
    if e.Alloc? {
      PidsAlloc(s, c, e);
    } else if e.ExitDone? {
      PidsExit(s, c, e);
    } else if e.WaitReap? {
      PidsReap(s, c, e);
    } else {
      PidsQuiet(s, c, e);
    }
  }

  lemma OtherIs(s: State, c: nat, ch: Change, wait': Option<nat>)
    requires On(s, c) && ch.q < |s.procs| && LocalOk(s, c, ch, wait')
    ensures ch.q != Me(s, c) ==> OtherOk(s.procs[ch.q], ch.y)
  {
  }
}
