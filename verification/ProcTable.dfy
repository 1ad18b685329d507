/**
  The process table over whole runs: fork, exit, wait, sleep, yield and the
  per-CPU schedulers, one step per region between lock operations.  Locks are
  owned by CPUs, and p->lock is handed from a process to the scheduler and back
  across swtch.
 */
module ProcTable {
  import opened Optional

  const INIT: nat := 0                    // initproc's slot

  datatype PState = UNUSED | USED | SLEEPING | RUNNABLE | RUNNING | ZOMBIE

  // Why a thread is switched out; a preempted one goes on at back.
  datatype Why = New | Yielding(back: PC) | SleepOther | SleepWait | Exiting

  // Where a process's kernel thread is.
  datatype PC =
    | NoThread                  // the slot is UNUSED, or its fork has not finished
    | Kernel                    // running, holding no spin lock
    | InSched(why: Why)         // in sched, before swtch; holds its own lock
    | Away(why: Why)            // switched out, or not yet switched in for the first time
    | Back(why: Why)            // switched in; still holds its own lock
    | Reacquire                 // woken in wait, about to take wait_lock again
    | ExitCrit(k: nat)          // holds wait_lock; reparent at slot k
    | WaitCrit(k: nat)          // holds wait_lock; wait's scan at slot k
    | WaitChild(k: nat)         // holds wait_lock and the lock of slot k
    | ForkAlloc(np: nat)        // holds the lock of the new slot
    | ForkMid(np: nat)
    | ForkLink(np: nat)         // holds wait_lock
    | ForkReady(np: nat)

  // intena: what sched has saved of its CPU's flag of that name.
  datatype Proc = Proc(
    state: PState, parent: Option<nat>, pid: nat, creator: nat, lock: Option<nat>, pc: PC, intena: bool)

  // What a CPU's scheduler thread is doing with the lock it holds.
  datatype Sched = Idle | Check(p: nat) | Return(p: nat)

  // running: the process whose thread executes on the CPU; None: the scheduler.
  // intr: interrupts are on; noff and intena: push_off's depth and what it found.
  datatype Cpu = Cpu(running: Option<nat>, sched: Sched, noff: int, intr: bool, intena: bool)

  datatype State = State(
    procs: seq<Proc>,
    cpus: seq<Cpu>,
    wait: Option<nat>,          // the CPU that holds wait_lock
    nextpid: nat,
    exited: set<nat>,           // pids that have become ZOMBIE
    reaped: set<nat>,           // pids that a wait has collected
    panicked: bool)

  datatype Event =
    | SchedTake(c: nat, p: nat)
    | SchedRun(c: nat)
    | SchedDrop(c: nat)
    | Unlock(c: nat)
    | Yield(c: nat)
    | Sleep(c: nat)
    | Swtch(c: nat)
    | Wake(c: nat, p: nat)
    | Intr(c: nat, on: bool)
    | Alloc(c: nat, np: nat)
    | AllocFail(c: nat)
    | AllocDone(c: nat)
    | LinkTake(c: nat)
    | LinkDone(c: nat)
    | ForkDone(c: nat)
    | ExitTake(c: nat)
    | ExitStep(c: nat)
    | ExitDone(c: nat)
    | WaitTake(c: nat)
    | WaitLook(c: nat)
    | WaitReap(c: nat)
    | WaitSkip(c: nat)
    | WaitFail(c: nat)
    | WaitNone(c: nat)
    | WaitSleep(c: nat)

  // ----- steps -----

  predicate On(s: State, c: nat)
  {
    c < |s.cpus| && s.cpus[c].running.Some? && s.cpus[c].running.value < |s.procs|
  }

  function Me(s: State, c: nat): nat
    requires On(s, c)
  {
    s.cpus[c].running.value
  }

  function Pc(s: State, c: nat): PC
    requires On(s, c)
  {
    s.procs[Me(s, c)].pc
  }

  // A step on CPU c by process p rewrites its own slot, at most one other slot, and noff.
  datatype Change = Change(x: Proc, q: nat, y: Proc, noff: int)

  // push_off and pop_off: the first turns interrupts off, the last restores them.
  function Nest(k: Cpu, n: int): Cpu
  {
    if k.noff == 0 && n > 0 then k.(noff := n, intena := k.intr, intr := false)
    else if k.noff > 0 && n == 0 then k.(noff := n, intr := k.intena)
    else k.(noff := n)
  }

  function Apply(s: State, c: nat, ch: Change): State
    requires On(s, c) && ch.q < |s.procs|
  {
    s.(procs := s.procs[ch.q := ch.y][Me(s, c) := ch.x], cpus := s.cpus[c := Nest(s.cpus[c], ch.noff)])
  }

  // A step that touches only p's own slot.
  function Own(s: State, c: nat, x: Proc, d: int): Change
    requires On(s, c)
  {
    Change(x, Me(s, c), x, s.cpus[c].noff + d)
  }

  function Mine(s: State, c: nat): Proc
    requires On(s, c)
  {
    s.procs[Me(s, c)]
  }

  // freeproc
  function Freed(x: Proc): Proc
  {
    x.(state := UNUSED, parent := None, pid := 0, creator := 0, pc := NoThread)
  }

  // The scheduler of CPU c holds a process's lock.
  predicate InScheduler(s: State, c: nat)
  {
    c < |s.cpus| && s.cpus[c].running.None? && (s.cpus[c].sched.Idle? || s.cpus[c].sched.p < |s.procs|)
  }

  // wakeup, or kill, can run on CPU c: called by a thread that holds no process lock, or by a
  // device interrupt, which needs interrupts on.
  predicate MayWake(s: State, c: nat)
  {
    c < |s.cpus| && if On(s, c) then Preemptible(Pc(s, c)) || Pc(s, c).ExitCrit? else s.cpus[c].sched.Idle?
  }

  predicate Enabled(s: State, e: Event)
  {
    && !s.panicked
    && match e
       case SchedTake(c, p) => InScheduler(s, c) && s.cpus[c].sched.Idle? && p < |s.procs| && s.procs[p].lock.None?
       case SchedRun(c) => InScheduler(s, c) && s.cpus[c].sched.Check? && s.procs[s.cpus[c].sched.p].state.RUNNABLE?
       case SchedDrop(c) =>
         InScheduler(s, c) && !s.cpus[c].sched.Idle? && (s.cpus[c].sched.Check? ==>
           !s.procs[s.cpus[c].sched.p].state.RUNNABLE?)
       case Intr(c, _) => c < |s.cpus| && s.cpus[c].noff == 0       // intr_on, intr_off, trap entry and return
       case Wake(c, p) =>
         && MayWake(s, c) && p < |s.procs| && (On(s, c) ==> p != Me(s, c))
         && s.procs[p].lock.None? && s.procs[p].state.SLEEPING?
       case _ => On(s, e.c) && Ready(s, e.c, e)
  }

  // The steps of the process running on CPU c.
  predicate Ready(s: State, c: nat, e: Event)
    requires On(s, c)
  {
    var p, pc, x := Me(s, c), Pc(s, c), Mine(s, c);
    match e
    case Unlock(_) => pc.Back?
    case Yield(_) => Preemptible(pc) && x.lock.None?
    case Sleep(_) => pc.Kernel? && x.lock.None?
    case Swtch(_) => pc.InSched?
    case Alloc(_, np) => pc.Kernel? && np < |s.procs| && s.procs[np].lock.None? && s.procs[np].state.UNUSED?
    case AllocFail(_) => pc.ForkAlloc? && pc.np < |s.procs|
    case AllocDone(_) => pc.ForkAlloc? && pc.np < |s.procs|
    case LinkTake(_) => pc.ForkMid? && pc.np < |s.procs| && s.wait.None?
    case LinkDone(_) => pc.ForkLink? && pc.np < |s.procs|
    case ForkDone(_) => pc.ForkReady? && pc.np < |s.procs| && s.procs[pc.np].lock.None?
    case ExitTake(_) => pc.Kernel? && s.wait.None? && p != INIT         // init does not exit
    case ExitStep(_) => pc.ExitCrit? && pc.k < |s.procs|
    case ExitDone(_) => pc.ExitCrit? && pc.k == |s.procs| && x.lock.None?
    case WaitTake(_) => (pc.Kernel? || pc.Reacquire?) && s.wait.None?
    case WaitLook(_) => pc.WaitCrit? && pc.k < |s.procs| && (s.procs[pc.k].parent == Some(p) ==>
      s.procs[pc.k].lock.None?)
    case WaitReap(_) => pc.WaitChild? && pc.k < |s.procs| && s.procs[pc.k].state.ZOMBIE?
    case WaitSkip(_) => pc.WaitChild? && pc.k < |s.procs| && !s.procs[pc.k].state.ZOMBIE?
    case WaitFail(_) => pc.WaitChild? && pc.k < |s.procs| && s.procs[pc.k].state.ZOMBIE?
    case WaitNone(_) => pc.WaitCrit? && pc.k == |s.procs|
    case WaitSleep(_) => pc.WaitCrit? && pc.k == |s.procs| && x.lock.None?
    case _ => false
  }

  // A timer interrupt can make the thread yield here: it holds no spin lock.
  predicate Preemptible(pc: PC)
  {
    pc.Kernel? || pc.Reacquire? || pc.ForkMid? || pc.ForkReady?
  }

  // Where a thread that is switched in goes on once it has released its own lock.
  function Resumes(why: Why): PC
  {
    match why
    case Yielding(back) => back
    case SleepWait => Reacquire
    case _ => Kernel
  }

  // Enter sched with p->lock held and the state changed.
  function Leave(s: State, c: nat, state: PState, why: Why, d: int): Change
    requires On(s, c)
  {
    Own(s, c, Mine(s, c).(state := state, lock := Some(c), pc := InSched(why)), d)
  }

  function ChangeOf(s: State, c: nat, e: Event): Change
    requires On(s, c) && Ready(s, c, e) && !e.Swtch?
  {
    var p, pc, x, n := Me(s, c), Pc(s, c), Mine(s, c), s.cpus[c].noff;
    match e
    case Unlock(_) => Own(s, c, x.(lock := None, pc := Resumes(pc.why)), -1)
    case Yield(_) => Leave(s, c, RUNNABLE, Yielding(pc), 1)
    // sleep is called with exactly one other spin lock, released once p->lock is held
    case Sleep(_) => Leave(s, c, SLEEPING, SleepOther, 1)
    case Alloc(_, np) =>
      Change(x.(pc := ForkAlloc(np)), np, s.procs[np].(lock := Some(c), state := USED, pid := s.nextpid), n + 1)
    case AllocFail(_) => Change(x.(pc := Kernel), pc.np, Freed(s.procs[pc.np]).(lock := None), n - 1)
    case AllocDone(_) => Change(x.(pc := ForkMid(pc.np)), pc.np, s.procs[pc.np].(lock := None), n - 1)
    case LinkTake(_) => Change(x.(pc := ForkLink(pc.np)), pc.np, s.procs[pc.np], n + 1)
    case LinkDone(_) => Change(x.(pc := ForkReady(pc.np)), pc.np, s.procs[pc.np].(parent := Some(p), creator := x.pid),
      n - 1)
    case ForkDone(_) => Change(x.(pc := Kernel), pc.np, s.procs[pc.np].(state := RUNNABLE, pc := Away(New)), n)
    case ExitTake(_) => Own(s, c, x.(pc := ExitCrit(0)), 1)
    case ExitStep(_) =>
      var y := s.procs[pc.k];
      Change(x.(pc := ExitCrit(pc.k + 1)), pc.k, if y.parent == Some(p) then y.(parent := Some(INIT)) else y, n)
    case ExitDone(_) => Leave(s, c, ZOMBIE, Exiting, 0)
    case WaitTake(_) => Own(s, c, x.(pc := WaitCrit(0)), 1)
    case WaitLook(_) =>
      if s.procs[pc.k].parent == Some(p)
        then Change(x.(pc := WaitChild(pc.k)), pc.k, s.procs[pc.k].(lock := Some(c)), n + 1)
      else Own(s, c, x.(pc := WaitCrit(pc.k + 1)), 0)
    case WaitReap(_) => Change(x.(pc := Kernel), pc.k, Freed(s.procs[pc.k]).(lock := None), n - 2)
    case WaitSkip(_) => Change(x.(pc := WaitCrit(pc.k + 1)), pc.k, s.procs[pc.k].(lock := None), n - 1)
    case WaitFail(_) => Change(x.(pc := Kernel), pc.k, s.procs[pc.k].(lock := None), n - 2)
    case WaitNone(_) => Own(s, c, x.(pc := Kernel), -1)
    case WaitSleep(_) => Leave(s, c, SLEEPING, SleepWait, 0)
  }

  function WaitLock(s: State, c: nat, e: Event): Option<nat>
  {
    if e.LinkTake? || e.ExitTake? || e.WaitTake? then Some(c)
    else if e.LinkDone? || e.ExitDone? || e.WaitReap? || e.WaitFail? || e.WaitNone? || e.WaitSleep? then None
    else s.wait
  }

  // A step of the process running on CPU c, other than swtch.
  function ProcStep(s: State, c: nat, e: Event): State
    requires On(s, c) && Ready(s, c, e) && !e.Swtch?
  {
    Apply(s, c, ChangeOf(s, c, e)).(
      wait := WaitLock(s, c, e),
      nextpid := if e.Alloc? then s.nextpid + 1 else s.nextpid,
      exited := if e.ExitDone? then s.exited + {Mine(s, c).pid} else s.exited,
      reaped := if e.WaitReap? then s.reaped + {s.procs[Pc(s, c).k].pid} else s.reaped)
  }

  // sched's four checks.
  predicate SchedOk(s: State, c: nat)
    requires On(s, c)
  {
    Mine(s, c).lock == Some(c) && s.cpus[c].noff == 1 && !Mine(s, c).state.RUNNING? && !s.cpus[c].intr
  }

  // p->lock stays with the CPU; sched keeps intena for its thread.
  function DoSwtch(s: State, c: nat): State
    requires On(s, c) && Pc(s, c).InSched?
  {
    if !SchedOk(s, c) then s.(panicked := true)
    else
      s.(procs := s.procs[Me(s, c) := Mine(s, c).(pc := Away(Pc(s, c).why), intena := s.cpus[c].intena)],
         cpus := s.cpus[c := s.cpus[c].(running := None, sched := Return(Me(s, c)))])
  }

  function DoSchedTake(s: State, c: nat, p: nat): State
    requires InScheduler(s, c) && p < |s.procs|
  {
    s.(procs := s.procs[p := s.procs[p].(lock := Some(c))],
       cpus := s.cpus[c := Nest(s.cpus[c], s.cpus[c].noff + 1).(sched := Check(p))])
  }

  // Only a thread that is switched out may be switched in, and a zombie never is.
  function DoSchedRun(s: State, c: nat): State
    requires InScheduler(s, c) && !s.cpus[c].sched.Idle?
  {
    var p := s.cpus[c].sched.p;
    var x := s.procs[p];
    if !x.pc.Away? || x.pc.why.Exiting? then s.(panicked := true)
    else
      s.(procs := s.procs[p := x.(state := RUNNING, pc := Back(x.pc.why))],
         cpus := s.cpus[c := Entered(s.cpus[c], p, x)])
  }

  // The CPU runs p's thread, which restores intena unless it is new.
  function Entered(k: Cpu, p: nat, x: Proc): Cpu
    requires x.pc.Away?
  {
    k.(running := Some(p), sched := Idle, intena := if x.pc.why.New? then k.intena else x.intena)
  }

  function DoSchedDrop(s: State, c: nat): State
    requires InScheduler(s, c) && !s.cpus[c].sched.Idle?
  {
    var p := s.cpus[c].sched.p;
    s.(procs := s.procs[p := s.procs[p].(lock := None)],
       cpus := s.cpus[c := Nest(s.cpus[c], s.cpus[c].noff - 1).(sched := Idle)])
  }

  function Do(s: State, e: Event): State
    requires Enabled(s, e)
  {
    match e
    case SchedTake(c, p) => DoSchedTake(s, c, p)
    case SchedRun(c) => DoSchedRun(s, c)
    case SchedDrop(c) => DoSchedDrop(s, c)
    case Swtch(c) => DoSwtch(s, c)
    case Wake(_, p) => s.(procs := s.procs[p := s.procs[p].(state := RUNNABLE)])
    case Intr(c, on) => s.(cpus := s.cpus[c := s.cpus[c].(intr := on)])
    case _ => ProcStep(s, e.c, e)
  }

  // ----- the invariant -----

  // The slots whose lock a running process holds at pc, and how many locks that makes.
  predicate HoldsLock(p: nat, pc: PC, q: nat)
  {
    match pc
    case InSched(_) => q == p
    case Back(_) => q == p
    case WaitChild(k) => q == k
    case ForkAlloc(np) => q == np
    case _ => false
  }

  predicate HoldsWait(pc: PC)
  {
    pc.ExitCrit? || pc.WaitCrit? || pc.WaitChild? || pc.ForkLink?
  }

  function Depth(pc: PC): int
  {
    match pc
    case WaitChild(_) => 2
    case InSched(_) => 1
    case Back(_) => 1
    case ForkAlloc(_) => 1
    case ForkLink(_) => 1
    case ExitCrit(_) => 1
    case WaitCrit(_) => 1
    case _ => 0
  }

  // What the thread is in the middle of, be it preempted or not.
  function Task(pc: PC): PC
  {
    match pc
    case InSched(Yielding(back)) => back
    case Away(Yielding(back)) => back
    case Back(Yielding(back)) => back
    case _ => pc
  }

  predicate Forking(pc: PC)
  {
    var t := Task(pc);
    t.ForkAlloc? || t.ForkMid? || t.ForkLink? || t.ForkReady?
  }

  // The slot of the child that a forking thread is making, and whether it has a parent yet.
  function ChildOf(pc: PC): nat
    requires Forking(pc)
  {
    Task(pc).np
  }

  predicate Linked(pc: PC)
  {
    Task(pc).ForkReady?
  }

  // Who executes where.
  ghost predicate Running(s: State)
  {
    && (forall c :: 0 <= c < |s.cpus| && s.cpus[c].running.Some? ==>
          s.cpus[c].running.value < |s.procs| && s.cpus[c].sched.Idle?
          && !s.procs[s.cpus[c].running.value].pc.Away? && !s.procs[s.cpus[c].running.value].pc.NoThread?)
    && (forall c, d :: 0 <= c < d < |s.cpus| && s.cpus[c].running.Some? ==> s.cpus[c].running != s.cpus[d].running)
    && (forall c :: 0 <= c < |s.cpus| && !s.cpus[c].sched.Idle? ==> s.cpus[c].sched.p < |s.procs|)
  }

  // push_off and pop_off have counted the locks held.
  ghost predicate Depths(s: State)
  {
    forall c :: 0 <= c < |s.cpus| ==>
      s.cpus[c].noff == if On(s, c) then Depth(Pc(s, c)) else if s.cpus[c].sched.Idle? then 0 else 1
  }

  // Interrupts are off while a spin lock is held.
  ghost predicate Masked(s: State)
  {
    forall c :: 0 <= c < |s.cpus| && s.cpus[c].noff > 0 ==> !s.cpus[c].intr
  }

  // The owner of p->lock is the CPU whose thread has taken it, or been handed it.
  ghost predicate SlotLocks(s: State)
  {
    && (forall c, q :: 0 <= c < |s.cpus| && 0 <= q < |s.procs| ==> (s.procs[q].lock == Some(c) <==> CpuHolds(s, c, q)))
    && (forall q :: 0 <= q < |s.procs| && s.procs[q].lock.Some? ==> s.procs[q].lock.value < |s.cpus|)
  }

  ghost predicate WaitHeld(s: State)
  {
    && (forall c :: 0 <= c < |s.cpus| ==> (s.wait == Some(c) <==> On(s, c) && HoldsWait(Pc(s, c))))
    && (s.wait.Some? ==> s.wait.value < |s.cpus|)
  }

  predicate CpuHolds(s: State, c: nat, q: nat)
    requires c < |s.cpus|
  {
    if On(s, c) then HoldsLock(Me(s, c), Pc(s, c), q) else !s.cpus[c].sched.Idle? && s.cpus[c].sched.p == q
  }

  // What a thread's position says about its process's state.
  predicate Fits(x: Proc)
  {
    match x.pc
    case NoThread => x.state.UNUSED? || x.state.USED?
    case InSched(why) => StateOf(why, x.state) && Saved(why)
    case Away(why) => StateOf(why, x.state) && Saved(why)
    case Back(why) => x.state.RUNNING? && Saved(why)
    case _ => x.state.RUNNING?
  }

  predicate Saved(why: Why)
  {
    why.Yielding? ==> Preemptible(why.back)
  }

  predicate StateOf(why: Why, state: PState)
  {
    match why
    case New => state.RUNNABLE?
    case Yielding(_) => state.RUNNABLE?
    case Exiting => state.ZOMBIE?
    case _ => state.SLEEPING? || state.RUNNABLE?
  }

  ghost predicate States(s: State)
  {
    && (forall p :: 0 <= p < |s.procs| ==> Fits(s.procs[p]) && !(s.procs[p].pc.InSched? && s.procs[p].pc.why.New?))
    && (forall p :: 0 <= p < |s.procs| && !s.procs[p].pc.Away? && !s.procs[p].pc.NoThread? ==> OnSome(s, p))
    && (forall p :: 0 <= p < |s.procs| && s.procs[p].pc.Back? ==> !s.procs[p].pc.why.Exiting?)
  }

  ghost predicate OnSome(s: State, p: nat)
  {
    exists c :: 0 <= c < |s.cpus| && s.cpus[c].running == Some(p)
  }

  // A slot between allocproc and the end of fork belongs to one forking process.
  predicate NewChild(s: State, p: nat, np: nat, linked: bool)
    requires p < |s.procs|
  {
    && np < |s.procs| && np != p && s.procs[np].state.USED?
    && (if linked then s.procs[np].parent == Some(p) && s.procs[np].creator == s.procs[p].pid
         else s.procs[np].parent.None?)
  }

  ghost predicate Forks(s: State)
  {
    && (forall p :: 0 <= p < |s.procs| && Forking(s.procs[p].pc) ==>
          NewChild(s, p, ChildOf(s.procs[p].pc), Linked(s.procs[p].pc)))
    && (forall p, q ::
          0 <= p < |s.procs| && 0 <= q < |s.procs| && p != q && Forking(s.procs[p].pc) && Forking(s.procs[q].pc) ==>
          ChildOf(s.procs[p].pc) != ChildOf(s.procs[q].pc))
  }

  // A started process that has not exited.
  predicate Live(x: Proc)
  {
    !x.pc.NoThread? && !x.state.ZOMBIE?
  }

  predicate LiveSlot(s: State, p: nat)
  {
    p < |s.procs| && Live(s.procs[p])
  }

  ghost predicate Parents(s: State)
  {
    && LiveSlot(s, INIT) && s.procs[INIT].parent.None?
    && (forall p :: 0 <= p < |s.procs| && s.procs[p].parent.Some? ==>
          LiveSlot(s, s.procs[p].parent.value) && s.procs[p].parent.value != p && !s.procs[p].state.UNUSED?)
    && (forall p, k :: 0 <= p < |s.procs| && s.procs[p].pc.ExitCrit? && 0 <= k < s.procs[p].pc.k && k < |s.procs| ==>
          s.procs[k].parent != Some(p))
    && (forall p :: 0 <= p < |s.procs| && s.procs[p].pc.ExitCrit? ==> p != INIT)
    && (forall p :: 0 <= p < |s.procs| && s.procs[p].pc.WaitChild? ==> IsChild(s, s.procs[p].pc.k, p))
  }

  predicate IsChild(s: State, k: nat, p: nat)
  {
    k < |s.procs| && s.procs[k].parent == Some(p)
  }

  // Every started process but init has a parent: its creator, or init.
  ghost predicate Kinship(s: State)
  {
    forall p :: 0 <= p < |s.procs| && p != INIT && !s.procs[p].pc.NoThread? ==> Kin(s, s.procs[p])
  }

  predicate Kin(s: State, x: Proc)
  {
    && x.parent.Some? && x.parent.value < |s.procs|
    && (x.parent.value == INIT || s.procs[x.parent.value].pid == x.creator)
  }

  ghost predicate Pids(s: State)
  {
    && (forall p :: 0 <= p < |s.procs| && !s.procs[p].state.UNUSED? ==>
          s.procs[p].pid < s.nextpid && s.procs[p].pid !in s.reaped)
    && (forall p, q :: 0 <= p < q < |s.procs| && !s.procs[p].state.UNUSED? && !s.procs[q].state.UNUSED? ==>
          s.procs[p].pid != s.procs[q].pid)
    && (forall p :: 0 <= p < |s.procs| && !s.procs[p].state.UNUSED? ==>
          (s.procs[p].pid in s.exited <==> s.procs[p].state.ZOMBIE?))
    && (forall x :: x in s.exited ==> x < s.nextpid) && s.reaped <= s.exited
  }

  // An exited process that has not been reaped is still in the table.
  ghost predicate Zombies(s: State)
  {
    forall x :: x in s.exited && x !in s.reaped ==> exists p: nat :: IsZombie(s, p, x)
  }

  // Slot p holds the exited process with pid x.
  predicate IsZombie(s: State, p: nat, x: nat)
  {
    p < |s.procs| && s.procs[p].state.ZOMBIE? && s.procs[p].pid == x
  }

  ghost predicate Inv(s: State)
  {
    && Running(s) && Depths(s) && Masked(s) && SlotLocks(s) && WaitHeld(s)
    && States(s) && Forks(s) && Parents(s) && Kinship(s) && Pids(s) && Zombies(s) && !s.panicked
  }
}
