/**
  The scheduler's steps, and what holds over every run of the process table.
 */
module ProcTheorems {
  import opened Optional
  import opened ProcTable
  import opened ProcSafety
  import opened ProcEvents

  // ----- steps that leave the family tree alone -----

  predicate Plain(pc: PC)
  {
    !pc.ExitCrit? && !pc.WaitChild? && !pc.NoThread?
  }

  // The thread is in the middle of the same fork, or of none.
  predicate SameFork(a: PC, b: PC)
  {
    (Forking(a) <==> Forking(b)) && (Forking(a) ==> Task(b) == Task(a))
  }

  predicate Bland(a: Proc, b: Proc)
  {
    && b.parent == a.parent && b.pid == a.pid && b.creator == a.creator
    && (b.pc == a.pc || (Plain(a.pc) && Plain(b.pc) && SameFork(a.pc, b.pc)))
    && (b.state.UNUSED? <==> a.state.UNUSED?) && (b.state.USED? <==> a.state.USED?) && (b.state.ZOMBIE? <==>
          a.state.ZOMBIE?)
  }

  ghost predicate BlandStep(s: State, s': State)
  {
    && |s'.procs| == |s.procs| && s'.nextpid == s.nextpid && s'.exited == s.exited && s'.reaped == s.reaped
    && (forall p :: 0 <= p < |s.procs| ==> Bland(s.procs[p], s'.procs[p]))
  }

  lemma BlandForks(s: State, s': State)
    requires Forks(s) && BlandStep(s, s')
    ensures Forks(s')
  {
    forall r | 0 <= r < |s'.procs| && Forking(s'.procs[r].pc)
      ensures NewChild(s', r, ChildOf(s'.procs[r].pc), Linked(s'.procs[r].pc))
    {
      assert Bland(s.procs[r], s'.procs[r]);
      assert NewChild(s, r, ChildOf(s.procs[r].pc), Linked(s.procs[r].pc));
    }
    forall r, q | 0 <= r < |s'.procs| && 0 <= q < |s'.procs| && r != q && Forking(s'.procs[r].pc)
      && Forking(s'.procs[q].pc)
      ensures ChildOf(s'.procs[r].pc) != ChildOf(s'.procs[q].pc)
    {
      assert Bland(s.procs[r], s'.procs[r]) && Bland(s.procs[q], s'.procs[q]);
    }
  }

  lemma BlandParents(s: State, s': State)
    requires Parents(s) && Kinship(s) && BlandStep(s, s')
    ensures Parents(s') && Kinship(s')
  {
    assert forall r: nat :: LiveSlot(s, r) ==> LiveSlot(s', r);
    forall r | 0 <= r < |s'.procs| && s'.procs[r].parent.Some?
      ensures LiveSlot(s', s'.procs[r].parent.value) && s'.procs[r].parent.value != r && !s'.procs[r].state.UNUSED?
    {
      assert Bland(s.procs[r], s'.procs[r]);
    }
    forall r | 0 <= r < |s'.procs| && s'.procs[r].pc.WaitChild? ensures IsChild(s', s'.procs[r].pc.k, r) {
      assert Bland(s.procs[r], s'.procs[r]);
      assert IsChild(s, s.procs[r].pc.k, r);
    }
    forall r, k | 0 <= r < |s'.procs| && s'.procs[r].pc.ExitCrit? && 0 <= k < s'.procs[r].pc.k && k < |s'.procs|
      ensures s'.procs[k].parent != Some(r)
    {
      assert Bland(s.procs[r], s'.procs[r]) && Bland(s.procs[k], s'.procs[k]);
    }
    forall r | 0 <= r < |s'.procs| && r != INIT && !s'.procs[r].pc.NoThread? ensures Kin(s', s'.procs[r]) {
      assert Bland(s.procs[r], s'.procs[r]);
      assert Kin(s, s.procs[r]);
    }
  }

  lemma BlandKeeps(s: State, s': State)
    requires Inv(s) && BlandStep(s, s') && !s'.panicked
    requires Running(s') && Depths(s') && Masked(s') && SlotLocks(s') && WaitHeld(s') && States(s')
    ensures Inv(s')
  {
    hide Running, Depths, Masked, SlotLocks, WaitHeld, States, Forks, Parents, Kinship, Pids, Zombies;
    BlandForks(s, s');
    BlandParents(s, s');
    BlandPids(s, s');
    BlandZombies(s, s');
  }

  lemma BlandZombies(s: State, s': State)
    requires Zombies(s) && BlandStep(s, s')
    ensures Zombies(s')
  {
    forall p: nat, x: nat | IsZombie(s, p, x) ensures IsZombie(s', p, x) {
      assert Bland(s.procs[p], s'.procs[p]);
    }
    ZombiesKept(s, s');
  }

  lemma BlandPids(s: State, s': State)
    requires Pids(s) && BlandStep(s, s')
    ensures Pids(s')
  {
    forall r | 0 <= r < |s.procs| ensures SamePid(s.procs[r], s'.procs[r]) {
      assert Bland(s.procs[r], s'.procs[r]);
    }
    PidsSame(s, s');
  }

  // What the invariant says about a CPU that runs its scheduler.
  lemma SchedFacts(s: State, c: nat)
    requires Inv(s) && InScheduler(s, c)
    ensures s.cpus[c].noff == if s.cpus[c].sched.Idle? then 0 else 1
    ensures s.cpus[c].noff > 0 ==> !s.cpus[c].intr
    ensures s.wait != Some(c)
    ensures forall q :: 0 <= q < |s.procs| ==>
      (s.procs[q].lock == Some(c) <==> !s.cpus[c].sched.Idle? && s.cpus[c].sched.p == q)
  {
    forall q | 0 <= q < |s.procs|
      ensures s.procs[q].lock == Some(c) <==> !s.cpus[c].sched.Idle? && s.cpus[c].sched.p == q
    {
      assert s.procs[q].lock == Some(c) <==> CpuHolds(s, c, q);
    }
  }

  // The views of the other CPUs are the same when no running thread moves.
  lemma SameViews(s: State, s': State, c: nat, p: nat)
    requires Running(s) && c < |s.cpus| && p < |s.procs| && |s'.cpus| == |s.cpus| && |s'.procs| == |s.procs|
    requires forall d :: 0 <= d < |s.cpus| && d != c ==> s'.cpus[d] == s.cpus[d]
    requires forall q :: 0 <= q < |s.procs| && q != p ==> s'.procs[q] == s.procs[q]
    requires s'.procs[p].pc == s.procs[p].pc || Switched(s.procs[p].pc) || s.cpus[c].running == Some(p)
    ensures forall d :: 0 <= d < |s.cpus| && d != c ==>
      (On(s', d) <==> On(s, d)) && (On(s, d) ==> Me(s', d) == Me(s, d) && Pc(s', d) == Pc(s, d))
  {
    forall d | 0 <= d < |s.cpus| && d != c && On(s, d) ensures Me(s', d) == Me(s, d) && Pc(s', d) == Pc(s, d) {
      assert s.cpus[d].running.Some? && !Switched(s.procs[Me(s, d)].pc);
      assert s.cpus[d].running != s.cpus[c].running;
    }
  }

  // A context switch on CPU c, or a scheduler's lock operation on slot p.
  function Switch(s: State, c: nat, p: nat, k: Cpu, x: Proc): State
    requires c < |s.cpus| && p < |s.procs|
  {
    s.(procs := s.procs[p := x], cpus := s.cpus[c := k])
  }

  ghost predicate SwitchOk(s: State, c: nat, p: nat, k: Cpu, x: Proc)
    requires c < |s.cpus| && p < |s.procs|
  {
    && (x.pc == s.procs[p].pc || Switched(s.procs[p].pc) || s.cpus[c].running == Some(p))
    && (s.cpus[c].running.Some? ==> s.cpus[c].running == Some(p) && Switched(x.pc))
    && (if k.running.Some? then k.running == Some(p) && k.sched.Idle? && !Switched(x.pc) && Switched(s.procs[p].pc)
        else k.sched.Idle? || k.sched.p == p)
    && (!Switched(x.pc) ==> x.pc == s.procs[p].pc || k.running.Some?)
    && (k.noff > 0 ==> !k.intr)
    && k.noff == (if k.running.Some? then Depth(x.pc) else if k.sched.Idle? then 0 else 1)
    && LockMoves(s.procs[p].lock, x.lock, c)
    && (x.lock == Some(c) <==> if k.running.Some? then HoldsLock(p, x.pc, p) else !k.sched.Idle?)
    && (k.running.Some? ==> !HoldsWait(x.pc) && forall r: nat :: r != p ==> !HoldsLock(p, x.pc, r))
    && (forall r :: 0 <= r < |s.procs| && r != p ==> s.procs[r].lock != Some(c))
    && s.wait != Some(c)
    && Fits(x) && !(x.pc.InSched? && x.pc.why.New?) && (x.pc.Back? ==> !x.pc.why.Exiting?)
    && Bland(s.procs[p], x)
  }

  lemma SwitchRunning(s: State, c: nat, p: nat, k: Cpu, x: Proc)
    requires Running(s) && c < |s.cpus| && p < |s.procs| && SwitchOk(s, c, p, k, x)
    ensures Running(Switch(s, c, p, k, x))
  {
    var s' := Switch(s, c, p, k, x);
    forall d | 0 <= d < |s'.cpus| && s'.cpus[d].running.Some?
      ensures s'.cpus[d].running.value < |s'.procs| && s'.cpus[d].sched.Idle?
      ensures !Switched(s'.procs[s'.cpus[d].running.value].pc)
    {
      if d != c {
        assert s.cpus[d].running.Some? && !Switched(s.procs[s.cpus[d].running.value].pc);
        assert s.cpus[d].running != s.cpus[c].running;
      }
    }
  }

  lemma SwitchDepths(s: State, c: nat, p: nat, k: Cpu, x: Proc)
    requires Running(s) && Depths(s) && Masked(s) && WaitHeld(s)
    requires c < |s.cpus| && p < |s.procs| && SwitchOk(s, c, p, k, x)
    ensures Depths(Switch(s, c, p, k, x)) && Masked(Switch(s, c, p, k, x)) && WaitHeld(Switch(s, c, p, k, x))
  {
    SameViews(s, Switch(s, c, p, k, x), c, p);
  }

  lemma SwitchLocks(s: State, c: nat, p: nat, k: Cpu, x: Proc)
    requires Running(s) && SlotLocks(s) && c < |s.cpus| && p < |s.procs| && SwitchOk(s, c, p, k, x)
    ensures SlotLocks(Switch(s, c, p, k, x))
  {
    var s' := Switch(s, c, p, k, x);
    SameViews(s, s', c, p);
    forall d, r | 0 <= d < |s'.cpus| && 0 <= r < |s'.procs|
      ensures s'.procs[r].lock == Some(d) <==> CpuHolds(s', d, r)
    {
      if d != c {
        assert s.procs[r].lock == Some(d) <==> CpuHolds(s, d, r);
      }
    }
  }

  lemma SwitchStates(s: State, c: nat, p: nat, k: Cpu, x: Proc)
    requires States(s) && c < |s.cpus| && p < |s.procs| && SwitchOk(s, c, p, k, x)
    ensures States(Switch(s, c, p, k, x))
  {
    var s' := Switch(s, c, p, k, x);
    forall r | 0 <= r < |s'.procs| && !Switched(s'.procs[r].pc) ensures OnSome(s', r) {
      if r == p && k.running.Some? {
        assert s'.cpus[c].running == Some(p);
      } else {
        assert OnSome(s, r);
        var d :| 0 <= d < |s.cpus| && s.cpus[d].running == Some(r);
        assert s'.cpus[d].running == Some(r);
      }
    }
  }

  lemma SwitchKeeps(s: State, c: nat, p: nat, k: Cpu, x: Proc)
    requires Inv(s) && c < |s.cpus| && p < |s.procs| && SwitchOk(s, c, p, k, x)
    ensures Inv(Switch(s, c, p, k, x))
  {
    hide Running, Depths, Masked, SlotLocks, WaitHeld, States, Forks, Parents, Kinship, Pids;
    var s' := Switch(s, c, p, k, x);
    SwitchRunning(s, c, p, k, x);
    SwitchDepths(s, c, p, k, x);
    SwitchLocks(s, c, p, k, x);
    SwitchStates(s, c, p, k, x);
    forall r | 0 <= r < |s.procs| ensures Bland(s.procs[r], s'.procs[r]) {
    }
    BlandKeeps(s, s');
  }

  lemma KeepSchedTake(s: State, c: nat, p: nat)
    requires Inv(s) && Enabled(s, SchedTake(c, p))
    ensures Inv(DoSchedTake(s, c, p))
  {
    hide Inv;
    SchedFacts(s, c);
    SlotFacts(s, p);
    if s.procs[p].pc.Back? {
      BackFacts(s, p);
    }
    SwitchKeeps(s, c, p, Nest(s.cpus[c], s.cpus[c].noff + 1).(sched := Check(p)), s.procs[p].(lock := Some(c)));
  }

  lemma BackFacts(s: State, p: nat)
    requires Inv(s) && p < |s.procs| && s.procs[p].pc.Back?
    ensures !s.procs[p].pc.why.Exiting?
  {
  }

  lemma KeepSchedDrop(s: State, c: nat)
    requires Inv(s) && Enabled(s, SchedDrop(c))
    ensures Inv(DoSchedDrop(s, c))
  {
    hide Inv;
    var p := s.cpus[c].sched.p;
    SchedFacts(s, c);
    SlotFacts(s, p);
    if s.procs[p].pc.Back? {
      BackFacts(s, p);
    }
    SwitchKeeps(s, c, p, Nest(s.cpus[c], s.cpus[c].noff - 1).(sched := Idle), s.procs[p].(lock := None));
  }

  // A RUNNABLE process whose lock the scheduler holds is switched out, everywhere.
  lemma RunnableIsAway(s: State, c: nat)
    requires Inv(s) && Enabled(s, SchedRun(c))
    ensures s.procs[s.cpus[c].sched.p].pc.Away? && !s.procs[s.cpus[c].sched.p].pc.why.Exiting?
    ensures forall d :: 0 <= d < |s.cpus| ==> s.cpus[d].running != Some(s.cpus[c].sched.p)
  {
    hide Inv;
    var p := s.cpus[c].sched.p;
    SchedFacts(s, c);
    SlotFacts(s, p);
    RunningSomewhere(s, p);
    forall d | 0 <= d < |s.cpus| ensures s.cpus[d].running != Some(p) {
      if s.cpus[d].running == Some(p) {
        MyFacts(s, d);
      }
    }
  }

  lemma KeepSchedRun(s: State, c: nat)
    requires Inv(s) && Enabled(s, SchedRun(c))
    ensures Inv(DoSchedRun(s, c))
  {
    hide Inv;
    var p := s.cpus[c].sched.p;
    var x := s.procs[p];
    SchedFacts(s, c);
    SlotFacts(s, p);
    RunnableIsAway(s, c);
    SwitchKeeps(s, c, p, Entered(s.cpus[c], p, x), x.(state := RUNNING, pc := Back(x.pc.why)));
  }

  // sched's panics are unreachable.
  lemma SchedNeverPanics(s: State, c: nat)
    requires Inv(s) && On(s, c) && Pc(s, c).InSched?
    ensures SchedOk(s, c)
  {
    hide Inv;
    MyFacts(s, c);
  }

  lemma KeepSwtch(s: State, c: nat)
    requires Inv(s) && Enabled(s, Swtch(c))
    ensures Inv(DoSwtch(s, c))
  {
    hide Inv;
    var p := Me(s, c);
    MyFacts(s, c);
    SlotFacts(s, p);
    SchedNeverPanics(s, c);
    forall r | 0 <= r < |s.procs| && r != p ensures s.procs[r].lock != Some(c) {
      HeldHere(s, c, r);
    }
    var x := Mine(s, c).(pc := Away(Pc(s, c).why), intena := s.cpus[c].intena);
    SwitchKeeps(s, c, p, s.cpus[c].(running := None, sched := Return(p)), x);
  }

  lemma KeepWake(s: State, c: nat, p: nat)
    requires Inv(s) && Enabled(s, Wake(c, p))
    ensures Inv(Do(s, Wake(c, p)))
  {
    hide Forks, Parents, Kinship, Pids;
    var s' := s.(procs := s.procs[p := s.procs[p].(state := RUNNABLE)]);
    forall d | 0 <= d < |s.cpus|
      ensures (On(s', d) <==> On(s, d)) && (On(s, d) ==> Me(s', d) == Me(s, d) && Pc(s', d) == Pc(s, d))
    {
    }
    forall r | 0 <= r < |s.procs| ensures Bland(s.procs[r], s'.procs[r]) {
    }
    WakeParts(s, s', p);
    BlandKeeps(s, s');
  }

  lemma WakeParts(s: State, s': State, p: nat)
    requires Inv(s) && p < |s.procs| && s.procs[p].state.SLEEPING?
    requires s' == s.(procs := s.procs[p := s.procs[p].(state := RUNNABLE)])
    requires forall d :: 0 <= d < |s.cpus| ==>
      (On(s', d) <==> On(s, d)) && (On(s, d) ==> Me(s', d) == Me(s, d) && Pc(s', d) == Pc(s, d))
    ensures Running(s') && Depths(s') && SlotLocks(s') && WaitHeld(s') && States(s')
  {
    hide Forks, Parents, Kinship, Pids;
    forall d, r | 0 <= d < |s'.cpus| && 0 <= r < |s'.procs|
      ensures s'.procs[r].lock == Some(d) <==> CpuHolds(s', d, r)
    {
      assert s.procs[r].lock == Some(d) <==> CpuHolds(s, d, r);
    }
    forall r | 0 <= r < |s'.procs| && !Switched(s'.procs[r].pc) ensures OnSome(s', r) {
      assert OnSome(s, r);
    }
  }

  lemma KeepIntr(s: State, c: nat, on: bool)
    requires Inv(s) && Enabled(s, Intr(c, on))
    ensures Inv(Do(s, Intr(c, on)))
  {
    hide Running, Depths, SlotLocks, WaitHeld, States, Forks, Parents, Kinship, Pids, Zombies, Fits;
    var s' := Do(s, Intr(c, on));
    IntrLocks(s, s', c, on);
    IntrStates(s, s', c, on);
    BlandKeeps(s, s');
  }

  lemma IntrLocks(s: State, s': State, c: nat, on: bool)
    requires Inv(s) && c < |s.cpus| && s' == s.(cpus := s.cpus[c := s.cpus[c].(intr := on)])
    ensures Running(s') && Depths(s') && SlotLocks(s') && WaitHeld(s')
  {
    hide Masked, States, Forks, Parents, Kinship, Pids, Zombies;
    forall d | 0 <= d < |s.cpus|
      ensures (On(s', d) <==> On(s, d)) && (On(s, d) ==> Me(s', d) == Me(s, d) && Pc(s', d) == Pc(s, d))
    {
    }
    forall d, r | 0 <= d < |s'.cpus| && 0 <= r < |s'.procs|
      ensures s'.procs[r].lock == Some(d) <==> CpuHolds(s', d, r)
    {
      assert s.procs[r].lock == Some(d) <==> CpuHolds(s, d, r);
    }
  }

  lemma IntrStates(s: State, s': State, c: nat, on: bool)
    requires Inv(s) && c < |s.cpus| && s' == s.(cpus := s.cpus[c := s.cpus[c].(intr := on)])
    ensures States(s')
  {
    hide Running, Depths, Masked, SlotLocks, WaitHeld, Forks, Parents, Kinship, Pids, Zombies, Fits;
    forall r | 0 <= r < |s'.procs| && !Switched(s'.procs[r].pc) ensures OnSome(s', r) {
      assert OnSome(s, r);
      var d :| 0 <= d < |s.cpus| && s.cpus[d].running == Some(r);
      assert s'.cpus[d].running == Some(r);
    }
  }

  // ----- every run -----

  lemma StepKeeps(s: State, e: Event)
    requires Inv(s) && Enabled(s, e)
    ensures Inv(Do(s, e))
  {
    hide Inv, ProcStep, Ready;
    match e
    case SchedTake(c, p) => KeepSchedTake(s, c, p);
    case SchedRun(c) => KeepSchedRun(s, c);
    case SchedDrop(c) => KeepSchedDrop(s, c);
    case Swtch(c) => KeepSwtch(s, c);
    case Wake(c, p) => KeepWake(s, c, p);
    case Intr(c, on) => KeepIntr(s, c, on);
    case _ => KeepProcStep(s, e.c, e);
  }

  // After userinit: one RUNNABLE process, all CPUs in their schedulers.
  ghost predicate Boot(s: State)
  {
    && !s.panicked && s.wait.None? && s.exited == {} && s.reaped == {} && s.nextpid > 0
    && |s.procs| > INIT && s.procs[INIT] == Proc(RUNNABLE, None, 0, 0, None, Away(New), false)
    && (forall p :: 0 <= p < |s.procs| && p != INIT ==> s.procs[p] == Proc(UNUSED, None, 0, 0, None, NoThread, false))
    && (forall c :: 0 <= c < |s.cpus| ==> s.cpus[c] == Cpu(None, Idle, 0, false, false))
  }

  ghost predicate IsRun(run: seq<State>, es: seq<Event>)
  {
    && |run| == |es| + 1 && Boot(run[0])
    && (forall i :: 0 <= i < |es| ==> Enabled(run[i], es[i]) && run[i + 1] == Do(run[i], es[i]))
  }

  lemma {:induction false} RunInv(run: seq<State>, es: seq<Event>, k: nat)
    requires IsRun(run, es) && k < |run|
    ensures Inv(run[k])
  {
    if k == 0 {
      BootInv(run[0]);
    } else {
      RunInv(run, es, k - 1);
      StepKeeps(run[k - 1], es[k - 1]);
    }
  }

  lemma BootInv(s: State)
    requires Boot(s)
    ensures Inv(s)
  {
  }

  // A process runs on at most one CPU, and no panic in sched is reachable.
  lemma OneCpu(run: seq<State>, es: seq<Event>, k: nat, c: nat, d: nat)
    requires IsRun(run, es) && k < |run| && c < d < |run[k].cpus| && run[k].cpus[c].running.Some?
    ensures run[k].cpus[c].running != run[k].cpus[d].running && !run[k].panicked
  {
    hide IsRun;
    RunInv(run, es, k);
  }

  // No process has a parent that is a zombie or an unused slot.
  lemma ParentsAlive(run: seq<State>, es: seq<Event>, k: nat, p: nat)
    requires IsRun(run, es) && k < |run| && p < |run[k].procs| && run[k].procs[p].parent.Some?
    ensures var q := run[k].procs[p].parent.value;
      q < |run[k].procs| && !run[k].procs[q].state.ZOMBIE? && !run[k].procs[q].state.UNUSED?
  {
    hide IsRun;
    RunInv(run, es, k);
    hide Running, Depths, Masked, SlotLocks, WaitHeld, Forks, Kinship, Pids;
    assert LiveSlot(run[k], run[k].procs[p].parent.value);
    assert Fits(run[k].procs[run[k].procs[p].parent.value]);
  }

  // A reaped child is off every CPU, exited and was not reaped before; its reaper is
  // its current parent, which is the process that forked it, or init.
  lemma ReapedOnce(run: seq<State>, es: seq<Event>, k: nat)
    requires IsRun(run, es) && k < |es| && es[k].WaitReap?
    ensures On(run[k], es[k].c) && Pc(run[k], es[k].c).WaitChild? && Pc(run[k], es[k].c).k < |run[k].procs|
    ensures var s, c := run[k], es[k].c; var x := s.procs[Pc(s, c).k];
      && x.pid in s.exited && x.pid !in s.reaped && run[k + 1].reaped == s.reaped + {x.pid}
      && x.parent == Some(Me(s, c)) && (Me(s, c) == INIT || Mine(s, c).pid == x.creator)
      && forall d :: 0 <= d < |s.cpus| ==> s.cpus[d].running != Some(Pc(s, c).k)
  {
    var s, c := run[k], es[k].c;
    RunInv(run, es, k);
    assert Enabled(s, es[k]) && run[k + 1] == Do(s, es[k]);
    hide Inv, IsRun;
    MyFacts(s, c);
    PidsReap(s, c, es[k]);
    ReapedIsAway(s, c);
    KinFacts(s, Pc(s, c).k);
  }

  lemma KinFacts(s: State, p: nat)
    requires Inv(s) && p < |s.procs| && !s.procs[p].pc.NoThread? && s.procs[p].parent.Some?
    ensures Kin(s, s.procs[p])
  {
    hide Running, Depths, Masked, SlotLocks, WaitHeld, Forks, Pids;
  }

  // reaped only grows, so a pid is reaped at most once in a run.
  lemma {:induction false} ReapedGrows(run: seq<State>, es: seq<Event>, j: nat, k: nat)
    requires IsRun(run, es) && j <= k < |run|
    ensures run[j].reaped <= run[k].reaped
  {
    if j < k {
      ReapedGrows(run, es, j, k - 1);
      assert run[k] == Do(run[k - 1], es[k - 1]);
    }
  }

  lemma {:induction false} ExitedGrows(run: seq<State>, es: seq<Event>, j: nat, k: nat)
    requires IsRun(run, es) && j <= k < |run|
    ensures run[j].exited <= run[k].exited
  {
    if j < k {
      ExitedGrows(run, es, j, k - 1);
      assert run[k] == Do(run[k - 1], es[k - 1]);
    }
  }

  // A process that has exited never vanishes: from then on it has been reaped, or it is a
  // zombie in the table with a live parent to reap it.
  lemma ExitedStays(run: seq<State>, es: seq<Event>, j: nat, k: nat, x: nat)
    requires IsRun(run, es) && j <= k < |run| && x in run[j].exited
    ensures x in run[k].reaped || exists p: nat :: IsZombie(run[k], p, x) && HasLiveParent(run[k], p)
  {
    ExitedGrows(run, es, j, k);
    RunInv(run, es, k);
    hide IsRun;
    var s := run[k];
    if x !in s.reaped {
      var p: nat :| IsZombie(s, p, x);
      ZombieHasParent(s, p);
    }
  }

  predicate HasLiveParent(s: State, p: nat)
  {
    p < |s.procs| && s.procs[p].parent.Some? && LiveSlot(s, s.procs[p].parent.value)
  }

  lemma ZombieHasParent(s: State, p: nat)
    requires Inv(s) && p < |s.procs| && s.procs[p].state.ZOMBIE?
    ensures HasLiveParent(s, p)
  {
    hide Running, Depths, Masked, SlotLocks, WaitHeld, Forks, Pids, Zombies;
    assert Fits(s.procs[p]);
    assert Kin(s, s.procs[p]);
  }

  // ----- spinlock.c's panics -----

  // The code is at the point where e begins: Enabled without the waiting for locks and without
  // the tests that come after acquire.
  predicate Poised(s: State, e: Event)
  {
    match e
    case SchedTake(c, p) => InScheduler(s, c) && s.cpus[c].sched.Idle? && p < |s.procs|
    case SchedRun(c) => InScheduler(s, c) && s.cpus[c].sched.Check? && s.procs[s.cpus[c].sched.p].state.RUNNABLE?
    case SchedDrop(c) =>
      InScheduler(s, c) && !s.cpus[c].sched.Idle? && (s.cpus[c].sched.Check? ==>
        !s.procs[s.cpus[c].sched.p].state.RUNNABLE?)
    case Intr(c, _) => c < |s.cpus| && s.cpus[c].noff == 0
    case Wake(c, p) => MayWake(s, c) && p < |s.procs| && (On(s, c) ==> p != Me(s, c))
    case _ => On(s, e.c) && PoisedAt(s, e.c, e)
  }

  predicate PoisedAt(s: State, c: nat, e: Event)
    requires On(s, c)
  {
    var p, pc := Me(s, c), Pc(s, c);
    match e
    case Unlock(_) => pc.Back?
    case Yield(_) => Preemptible(pc)
    case Sleep(_) => pc.Kernel?
    case Swtch(_) => pc.InSched?
    case Alloc(_, np) => pc.Kernel? && np < |s.procs|
    case AllocFail(_) => pc.ForkAlloc? && pc.np < |s.procs|
    case AllocDone(_) => pc.ForkAlloc? && pc.np < |s.procs|
    case LinkTake(_) => pc.ForkMid? && pc.np < |s.procs|
    case LinkDone(_) => pc.ForkLink? && pc.np < |s.procs|
    case ForkDone(_) => pc.ForkReady? && pc.np < |s.procs|
    case ExitTake(_) => pc.Kernel? && p != INIT
    case ExitStep(_) => pc.ExitCrit? && pc.k < |s.procs|
    case ExitDone(_) => pc.ExitCrit? && pc.k == |s.procs|
    case WaitTake(_) => pc.Kernel? || pc.Reacquire?
    case WaitLook(_) => pc.WaitCrit? && pc.k < |s.procs|
    case WaitReap(_) => pc.WaitChild? && pc.k < |s.procs| && s.procs[pc.k].state.ZOMBIE?
    case WaitSkip(_) => pc.WaitChild? && pc.k < |s.procs| && !s.procs[pc.k].state.ZOMBIE?
    case WaitFail(_) => pc.WaitChild? && pc.k < |s.procs| && s.procs[pc.k].state.ZOMBIE?
    case WaitNone(_) => pc.WaitCrit? && pc.k == |s.procs|
    case WaitSleep(_) => pc.WaitCrit? && pc.k == |s.procs|
    case _ => false
  }

  // The slot whose lock the step acquires, and whether it acquires wait_lock.
  function Acquires(s: State, e: Event): Option<nat>
    requires Poised(s, e)
  {
    match e
    case SchedTake(_, p) => Some(p)
    case Wake(_, p) => Some(p)
    case Alloc(_, np) => Some(np)
    case ForkDone(c) => Some(Pc(s, c).np)
    case WaitLook(c) => if s.procs[Pc(s, c).k].parent == Some(Me(s, c)) then Some(Pc(s, c).k) else None
    case Yield(c) => Some(Me(s, c))
    case Sleep(c) => Some(Me(s, c))
    case ExitDone(c) => Some(Me(s, c))
    case WaitSleep(c) => Some(Me(s, c))
    case _ => None
  }

  predicate AcquiresWait(e: Event)
  {
    e.LinkTake? || e.ExitTake? || e.WaitTake?
  }

  // The slot whose lock the step releases, having acquired it in an earlier step; likewise wait_lock.
  function Releases(s: State, e: Event): Option<nat>
    requires Poised(s, e)
  {
    match e
    case Unlock(c) => Some(Me(s, c))
    case AllocFail(c) => Some(Pc(s, c).np)
    case AllocDone(c) => Some(Pc(s, c).np)
    case WaitReap(c) => Some(Pc(s, c).k)
    case WaitSkip(c) => Some(Pc(s, c).k)
    case WaitFail(c) => Some(Pc(s, c).k)
    case SchedDrop(c) => Some(s.cpus[c].sched.p)
    case _ => None
  }

  predicate ReleasesWait(e: Event)
  {
    e.LinkDone? || e.ExitDone? || e.WaitReap? || e.WaitFail? || e.WaitNone? || e.WaitSleep?
  }

  // The tests made under the lock that the step has acquired.
  predicate Found(s: State, e: Event)
    requires Poised(s, e)
  {
    (e.Alloc? ==> s.procs[e.np].state.UNUSED?) && (e.Wake? ==> s.procs[e.p].state.SLEEPING?)
  }

  // A step waits for exactly the locks it acquires.
  lemma WaitsForLocks(s: State, e: Event)
    ensures Enabled(s, e) <==>
      && !s.panicked && Poised(s, e) && Found(s, e)
      && (Acquires(s, e).Some? ==> s.procs[Acquires(s, e).value].lock.None?)
      && (AcquiresWait(e) ==> s.wait.None?)
  {
  }

  // wakeup and the end of fork take the lock and let go of it again within the step.
  predicate Brief(e: Event)
  {
    e.Wake? || e.ForkDone?
  }

  // The other slot that a process's step writes is not its own, or keeps its lock.
  lemma OtherSlot(s: State, c: nat, e: Event)
    requires Inv(s) && On(s, c) && Ready(s, c, e) && !e.Swtch?
    ensures ChangeOf(s, c, e).q == Me(s, c) ==> ChangeOf(s, c, e).y.lock == ChangeOf(s, c, e).x.lock
  {
    hide Running, Depths, Masked, SlotLocks, WaitHeld, States, Forks, Kinship, Pids, Zombies;
    MyFacts(s, c);
  }

  // It ends with the locks it has acquired and without those it has released; no other changes.
  lemma LocksChange(s: State, e: Event, q: nat)
    requires Inv(s) && Enabled(s, e) && Poised(s, e) && q < |s.procs|
    ensures |Do(s, e).procs| == |s.procs|
    ensures Do(s, e).procs[q].lock == LockAfter(s, e, q)
    ensures Do(s, e).wait == if AcquiresWait(e) then Some(e.c) else if ReleasesWait(e) then None else s.wait
  {
    hide Inv, LockAfter;
    match e
    case SchedTake(c, p) => SchedLocks(s, e, q);
    case SchedRun(c) => SchedLocks(s, e, q);
    case SchedDrop(c) => SchedLocks(s, e, q);
    case Wake(c, p) => SchedLocks(s, e, q);
    case Intr(c, on) => SchedLocks(s, e, q);
    case Swtch(c) => SchedLocks(s, e, q);
    case _ =>
      OtherSlot(s, e.c, e);
      ProcLocks(s, e.c, e, q);
  }

  function LockAfter(s: State, e: Event, q: nat): Option<nat>
    requires Poised(s, e) && q < |s.procs|
  {
    if Acquires(s, e) == Some(q) && !Brief(e) then Some(e.c)
    else if Releases(s, e) == Some(q) then None
    else s.procs[q].lock
  }

  lemma SchedLocks(s: State, e: Event, q: nat)
    requires Enabled(s, e) && Poised(s, e) && q < |s.procs|
    requires e.SchedTake? || e.SchedRun? || e.SchedDrop? || e.Wake? || e.Intr? || e.Swtch?
    ensures |Do(s, e).procs| == |s.procs| && Do(s, e).procs[q].lock == LockAfter(s, e, q) && Do(s, e).wait == s.wait
  {
    hide ProcStep;
  }

  lemma ProcLocks(s: State, c: nat, e: Event, q: nat)
    requires On(s, c) && Ready(s, c, e) && !e.Swtch? && e.c == c && Poised(s, e) && q < |s.procs|
    requires ChangeOf(s, c, e).q == Me(s, c) ==> ChangeOf(s, c, e).y.lock == ChangeOf(s, c, e).x.lock
    ensures ProcStep(s, c, e).procs[q].lock == LockAfter(s, e, q)
  {
    hide Nest;
  }

  // What spinlock.c checks in the acquires and releases of step e.
  predicate LocksAsExpected(s: State, e: Event, q: nat)
    requires Poised(s, e) && q < |s.procs|
  {
    && (Acquires(s, e) == Some(q) ==> s.procs[q].lock != Some(e.c))
    && (AcquiresWait(e) ==> s.wait != Some(e.c))
    && (Releases(s, e) == Some(q) ==> s.procs[q].lock == Some(e.c))
    && (ReleasesWait(e) ==> s.wait == Some(e.c))
    && (Releases(s, e) == Some(q) || ReleasesWait(e) ==>
          e.c < |s.cpus| && s.cpus[e.c].noff >= 1 && !s.cpus[e.c].intr)
  }

  // acquire's test that this CPU does not hold the lock never fails, nor release's that it does,
  // nor pop_off's that interrupts are off and the depth is positive: for every step that the code
  // is about to make, in every state of every run.
  lemma SpinLocksNeverPanic(run: seq<State>, es: seq<Event>, k: nat, e: Event, q: nat)
    requires IsRun(run, es) && k < |run| && Poised(run[k], e) && q < |run[k].procs|
    ensures LocksAsExpected(run[k], e, q)
  {
    hide IsRun, Inv;
    RunInv(run, es, k);
    StepLocks(run[k], e, q);
  }

  lemma StepLocks(s: State, e: Event, q: nat)
    requires Inv(s) && Poised(s, e) && q < |s.procs|
    ensures LocksAsExpected(s, e, q)
  {
    hide Inv, LocksAsExpected;
    CpuLocks(s, e.c, q);
    if e.SchedTake? || e.SchedRun? || e.SchedDrop? || e.Intr? || e.Wake? {
      SchedulerLocks(s, e, q);
    } else {
      CpuFacts(s, e.c);
      ThreadLocks(s, e.c, e, q);
    }
  }

  lemma SchedulerLocks(s: State, e: Event, q: nat)
    requires Poised(s, e) && q < |s.procs| && (e.SchedTake? || e.SchedRun? || e.SchedDrop? || e.Intr? || e.Wake?)
    requires e.c < |s.cpus| ==> (s.procs[q].lock == Some(e.c) <==> CpuHolds(s, e.c, q))
    requires e.c < |s.cpus| && !On(s, e.c) && !s.cpus[e.c].sched.Idle? ==> s.cpus[e.c].noff == 1 && !s.cpus[e.c].intr
    ensures LocksAsExpected(s, e, q)
  {
  }

  // What a thread acquires it does not hold, and what it releases it does.
  lemma ThreadLocks(s: State, c: nat, e: Event, q: nat)
    requires On(s, c) && e.c == c && Poised(s, e) && q < |s.procs|
    requires s.procs[q].lock == Some(c) <==> CpuHolds(s, c, q)
    requires !e.SchedTake? && !e.SchedRun? && !e.SchedDrop? && !e.Intr? && !e.Wake?
    requires s.cpus[c].noff == Depth(Pc(s, c)) && (s.cpus[c].noff > 0 ==> !s.cpus[c].intr)
    requires s.wait == Some(c) <==> HoldsWait(Pc(s, c))
    requires Forking(Pc(s, c)) ==> ChildOf(Pc(s, c)) != Me(s, c)
    ensures LocksAsExpected(s, e, q)
  {
  }

  // The locks of CPU c.
  lemma CpuLocks(s: State, c: nat, q: nat)
    requires Inv(s) && q < |s.procs|
    ensures c < |s.cpus| ==> (s.procs[q].lock == Some(c) <==> CpuHolds(s, c, q))
    ensures c < |s.cpus| && !On(s, c) && !s.cpus[c].sched.Idle? ==> s.cpus[c].noff == 1 && !s.cpus[c].intr
  {
    hide Running, WaitHeld, States, Forks, Parents, Kinship, Pids, Zombies, CpuHolds;
  }

  lemma CpuFacts(s: State, c: nat)
    requires Inv(s) && On(s, c)
    ensures s.cpus[c].noff == Depth(Pc(s, c)) && (s.cpus[c].noff > 0 ==> !s.cpus[c].intr)
    ensures s.wait == Some(c) <==> HoldsWait(Pc(s, c))
    ensures Forking(Pc(s, c)) ==> ChildOf(Pc(s, c)) != Me(s, c)
  {
    hide Inv;
    MyFacts(s, c);
  }
}
