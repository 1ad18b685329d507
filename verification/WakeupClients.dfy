/**
  Three clients of sleep and wakeup: sleep locks, admission to the log, and
  waiting for a child to exit.  Each follows the discipline, so none of them
  can sleep through its condition.
 */
module WakeupClients {
  import opened Optional
  import opened SleepWakeup
  import Log

  // ----- sleep locks (sleeplock.c) -----

  datatype SleepLock = SleepLock(locked: bool, pid: nat)
  datatype SleepLockCall = AcquireSleep | ReleaseSleep

  function SleepLockPlan(d: SleepLock, p: nat, c: SleepLockCall): Plan<SleepLock>
  {
    match c
    case AcquireSleep => if d.locked then Wait else Finish([Assign(SleepLock(true, p))])
    case ReleaseSleep => Finish([Assign(SleepLock(false, 0)), Wakeup(0)])
  }

  function SleepLocks(n: nat): System<SleepLock, SleepLockCall>
  {
    System(n, (d: SleepLock, q) => !d.locked, q => 0, SleepLockPlan)
  }

  lemma SleepLockDisciplined(n: nat)
    ensures Disciplined(SleepLocks(n))
  {
    forall d: SleepLock, p: nat, c: SleepLockCall | p < n ensures Behaves(SleepLocks(n), d, p, c) {
      SleepLockBehaves(n, d, p, c);
    }
  }

  lemma SleepLockBehaves(n: nat, d: SleepLock, p: nat, c: SleepLockCall)
    requires p < n
    ensures Behaves(SleepLocks(n), d, p, c)
  {
    AfterOne(d, Assign(SleepLock(true, p)));
    if c.ReleaseSleep? {
      assert IsWakeup(SleepLockPlan(d, p, c).acts[1], 0);
    }
  }

  // A free sleep lock has no sleeper, whenever its spin lock is free.
  lemma SleepLockNotMissed(n: nat, run: seq<State<SleepLock>>, es: seq<Event<SleepLockCall>>, k: nat, q: nat)
    requires IsRun(SleepLocks(n), run, es) && k < |run| && q < |run[k].st| && run[k].holder.None?
    requires run[k].st[q].Sleeping?
    ensures run[k].data.locked
  {
    SleepLockDisciplined(n);
    NoLostWakeup(SleepLocks(n), run, es, k, q);
  }

  // ----- log admission (log.c) -----

  datatype Admission = Admission(n: nat, outstanding: nat, committing: bool)
  datatype AdmissionCall = BeginOp | EndOp | CommitDone | LogWrite

  predicate MayBegin(d: Admission)
  {
    !d.committing && d.n + (d.outstanding + 1) * Log.MAXOPBLOCKS <= Log.LOGSIZE
  }

  function AdmissionPlan(d: Admission, p: nat, c: AdmissionCall): Plan<Admission>
  {
    match c
    case BeginOp => if MayBegin(d) then Finish([Assign(d.(outstanding := d.outstanding + 1))]) else Wait
    case EndOp =>
      if d.outstanding == 0 then Finish([])
      else if d.outstanding == 1
        then Finish([Assign(d.(outstanding := 0)), Assign(d.(outstanding := 0, committing := true))])
      else Finish([Assign(d.(outstanding := d.outstanding - 1)), Wakeup(0)])
    case CommitDone => Finish([Assign(d.(n := 0, committing := false)), Wakeup(0)])
    case LogWrite => Finish([Assign(d.(n := d.n + 1))])
  }

  function Admissions(n: nat): System<Admission, AdmissionCall>
  {
    System(n, (d, q) => MayBegin(d), q => 0, AdmissionPlan)
  }

  lemma AdmissionDisciplined(n: nat)
    ensures Disciplined(Admissions(n))
  {
    forall d: Admission, p: nat, c: AdmissionCall | p < n ensures Behaves(Admissions(n), d, p, c) {
      AdmissionBehaves(n, d, p, c);
    }
  }

  lemma AdmissionBehaves(n: nat, d: Admission, p: nat, c: AdmissionCall)
    requires p < n
    ensures Behaves(Admissions(n), d, p, c)
  {
    AfterOne(d, Assign(d.(outstanding := d.outstanding + 1)));
    AfterOne(d, Assign(d.(n := d.n + 1)));
    AfterTwo(d, Assign(d.(outstanding := 0)), Assign(d.(outstanding := 0, committing := true)));
    if c.CommitDone? || (c.EndOp? && d.outstanding > 1) {
      assert IsWakeup(AdmissionPlan(d, p, c).acts[1], 0);
    }
  }

  // While log.lock is free, an operation sleeps in begin_op only if it may not begin.
  lemma AdmissionNotMissed(n: nat, run: seq<State<Admission>>, es: seq<Event<AdmissionCall>>, k: nat, q: nat)
    requires IsRun(Admissions(n), run, es) && k < |run| && q < |run[k].st| && run[k].holder.None?
    requires run[k].st[q].Sleeping?
    ensures !MayBegin(run[k].data)
  {
    AdmissionDisciplined(n);
    NoLostWakeup(Admissions(n), run, es, k, q);
  }

  // ----- exit and wait (proc.c), under wait_lock -----

  datatype Family = Family(parent: seq<Option<nat>>, zombie: seq<bool>)
  datatype FamilyCall = Exit | WaitChild(copied: bool) | ForkLink(np: nat)

  const INIT: nat := 0

  predicate Child(d: Family, k: nat, q: nat)
  {
    k < |d.parent| && d.parent[k] == Some(q)
  }

  predicate ZombieChild(d: Family, k: nat, q: nat)
  {
    Child(d, k, q) && k < |d.zombie| && d.zombie[k]
  }

  predicate Reapable(d: Family, q: nat)
  {
    exists k :: 0 <= k < |d.parent| && ZombieChild(d, k, q)
  }

  predicate Childless(d: Family, q: nat)
  {
    forall k :: 0 <= k < |d.parent| ==> !Child(d, k, q)
  }

  // wait(p) would return instead of sleeping.
  predicate WaitReturns(d: Family, q: nat)
  {
    Reapable(d, q) || Childless(d, q)
  }

  // reparent's loop from slot k on.
  function ReparentActs(d: Family, p: nat, k: nat): seq<Act<Family>>
    decreases |d.parent| - k
  {
    if k >= |d.parent| then []
    else if d.parent[k] == Some(p) then
      var d' := d.(parent := d.parent[k := Some(INIT)]);
      [Assign(d'), Wakeup(INIT)] + ReparentActs(d', p, k + 1)
    else ReparentActs(d, p, k + 1)
  }

  // The table after that loop.
  function Reparented(d: Family, p: nat, k: nat): Family
    decreases |d.parent| - k
  {
    if k >= |d.parent| then d
    else if d.parent[k] == Some(p) then Reparented(d.(parent := d.parent[k := Some(INIT)]), p, k + 1)
    else Reparented(d, p, k + 1)
  }

  function FirstZombie(d: Family, q: nat, k: nat): (r: Option<nat>)
    ensures r.Some? ==> r.value < |d.parent| && ZombieChild(d, r.value, q)
    ensures r.None? ==> forall i :: k <= i < |d.parent| ==> !ZombieChild(d, i, q)
    decreases |d.parent| - k
  {
    if k >= |d.parent| then None
    else if ZombieChild(d, k, q) then Some(k)
    else FirstZombie(d, q, k + 1)
  }

  function FamilyPlan(d: Family, p: nat, c: FamilyCall): Plan<Family>
  {
    match c
    case Exit =>
      if p >= |d.parent| || p >= |d.zombie| || p == INIT then Finish([])
      else
        ReparentedIs(d, p, 0);
        var d' := Reparented(d, p, 0);
        Finish(ReparentActs(d, p, 0) + ExitActs(d', p))
    case WaitChild(copied) =>
      (match FirstZombie(d, p, 0)
       case Some(k) =>
         // freeproc, unless copyout of the status failed
         if copied then Finish([Assign(Family(d.parent[k := None], d.zombie[k := false]))]) else Finish([])
       case None => if Childless(d, p) then Finish([]) else Wait)
    case ForkLink(np) =>
      if np < |d.parent| && d.parent[np].None? && np < |d.zombie| && !d.zombie[np]
        then Finish([Assign(d.(parent := d.parent[np := Some(p)]))])
      else Finish([])
  }

  // wakeup(p->parent), and only then p->state = ZOMBIE.
  function ExitActs(d: Family, p: nat): seq<Act<Family>>
    requires p < |d.zombie|
  {
    (if p < |d.parent| && d.parent[p].Some? then [Wakeup(d.parent[p].value)] else [])
      + [Assign(d.(zombie := d.zombie[p := true]))]
  }

  function Families(n: nat): System<Family, FamilyCall>
  {
    System(n, WaitReturns, q => q, FamilyPlan)
  }

  lemma {:induction false} AfterReparent(d: Family, p: nat, k: nat, rest: seq<Act<Family>>)
    ensures After(d, ReparentActs(d, p, k) + rest) == After(Reparented(d, p, k), rest)
    decreases |d.parent| - k
  {
    if k >= |d.parent| {
      assert ReparentActs(d, p, k) + rest == rest;
    } else if d.parent[k] == Some(p) {
      var d' := d.(parent := d.parent[k := Some(INIT)]);
      var acts := ReparentActs(d, p, k) + rest;
      AfterReparent(d', p, k + 1, rest);
      assert acts[0] == Assign(d') && acts[1] == Wakeup(INIT);
      assert acts[1..][1..] == ReparentActs(d', p, k + 1) + rest;
      assert acts[1..][0] == acts[1];
    } else {
      AfterReparent(d, p, k + 1, rest);
    }
  }

  lemma {:induction false} ReparentedIs(d: Family, p: nat, k: nat)
    requires p != INIT
    ensures var d' := Reparented(d, p, k);
      && |d'.parent| == |d.parent| && d'.zombie == d.zombie
      && forall i :: 0 <= i < |d.parent| ==>
            d'.parent[i] == if i >= k && d.parent[i] == Some(p) then Some(INIT) else d.parent[i]
    decreases |d.parent| - k
  {
    if k < |d.parent| {
      if d.parent[k] == Some(p) {
        ReparentedIs(d.(parent := d.parent[k := Some(INIT)]), p, k + 1);
      } else {
        ReparentedIs(d, p, k + 1);
      }
    }
  }

  lemma {:induction false} ReparentWakes(d: Family, p: nat, k: nat, i: nat)
    requires p != INIT && k <= i < |d.parent| && d.parent[i] == Some(p)
    ensures Wakes(ReparentActs(d, p, k), INIT)
    decreases |d.parent| - k
  {
    if d.parent[k] == Some(p) {
      assert IsWakeup(ReparentActs(d, p, k)[1], INIT);
    } else {
      ReparentWakes(d, p, k + 1, i);
    }
  }

  lemma WakesMore(a: seq<Act<Family>>, b: seq<Act<Family>>, c: nat)
    requires Wakes(a, c) || Wakes(b, c)
    ensures Wakes(a + b, c)
  {
    if Wakes(a, c) {
      var i :| 0 <= i < |a| && IsWakeup(a[i], c);
      assert IsWakeup((a + b)[i], c);
    } else {
      var i :| 0 <= i < |b| && IsWakeup(b[i], c);
      assert IsWakeup((a + b)[|a| + i], c);
    }
  }

  lemma AfterExit(d: Family, p: nat)
    requires p < |d.zombie|
    ensures After(d, ExitActs(d, p)) == d.(zombie := d.zombie[p := true])
  {
    var a := Assign(d.(zombie := d.zombie[p := true]));
    if p < |d.parent| && d.parent[p].Some? {
      assert ExitActs(d, p) == [Wakeup(d.parent[p].value), a];
      AfterTwo(d, Wakeup(d.parent[p].value), a);
    } else {
      assert ExitActs(d, p) == [a];
      AfterOne(d, a);
    }
  }

  // A process made ready by p's exit is its parent, or init, and is woken.
  lemma ExitWakes(d: Family, p: nat, q: nat)
    requires p < |d.parent| && p < |d.zombie| && p != INIT && q != p
    requires WaitReturns(After(d, FamilyPlan(d, p, Exit).acts), q) && !WaitReturns(d, q)
    ensures Wakes(FamilyPlan(d, p, Exit).acts, q)
  {
    var d' := Reparented(d, p, 0);
    ReparentedIs(d, p, 0);
    AfterReparent(d, p, 0, ExitActs(d', p));
    AfterExit(d', p);
    var e := d'.(zombie := d'.zombie[p := true]);
    var c :| 0 <= c < |d.parent| && Child(d, c, q);
    assert Child(e, c, q);
    var k :| 0 <= k < |e.parent| && ZombieChild(e, k, q);
    if k == p {
      assert d'.parent[p] == Some(q);
      assert IsWakeup(ExitActs(d', p)[0], q);
    } else {
      assert !ZombieChild(d, k, q);
      assert d.parent[k] == Some(p) && q == INIT;
      ReparentWakes(d, p, 0, k);
    }
    WakesMore(ReparentActs(d, p, 0), ExitActs(d', p), q);
  }

  // Reaping, and linking a new child, change nothing for anybody else.
  lemma QuietCalls(d: Family, p: nat, c: FamilyCall, q: nat)
    requires !c.Exit? && q != p && FamilyPlan(d, p, c).Finish?
    requires WaitReturns(After(d, FamilyPlan(d, p, c).acts), q)
    ensures WaitReturns(d, q)
  {
    var acts := FamilyPlan(d, p, c).acts;
    var d' := After(d, acts);
    if acts != [] {
      AfterOne(d, acts[0]);
      assert acts == [acts[0]];
    }
    if Reapable(d', q) {
      var k :| 0 <= k < |d'.parent| && ZombieChild(d', k, q);
      assert ZombieChild(d, k, q);
    } else {
      forall k | 0 <= k < |d.parent| ensures !Child(d, k, q) {
        assert !Child(d', k, q);
      }
    }
  }

  lemma FamilyDisciplined(n: nat)
    ensures Disciplined(Families(n))
  {
    forall d: Family, p: nat, c: FamilyCall | p < n ensures Behaves(Families(n), d, p, c) {
      FamilyBehaves(n, d, p, c);
    }
  }

  lemma FamilyBehaves(n: nat, d: Family, p: nat, c: FamilyCall)
    requires p < n
    ensures Behaves(Families(n), d, p, c)
  {
    hide After, FamilyPlan, WaitReturns;
    var plan := FamilyPlan(d, p, c);
    if plan.Wait? {
      WaitsOnlyIf(d, p, c);
    } else {
      forall q | 0 <= q < n && q != p && WaitReturns(After(d, plan.acts), q) && !WaitReturns(d, q)
        ensures Wakes(plan.acts, q)
      {
        if !c.Exit? {
          QuietCalls(d, p, c, q);
        } else if p < |d.parent| && p < |d.zombie| && p != INIT {
          ExitWakes(d, p, q);
        } else {
          ExitInRange(d, p);
        }
      }
    }
  }

  lemma ExitInRange(d: Family, p: nat)
    requires !(p < |d.parent| && p < |d.zombie| && p != INIT)
    ensures FamilyPlan(d, p, Exit) == Finish([]) && After(d, []) == d
  {
  }

  lemma WaitsOnlyIf(d: Family, p: nat, c: FamilyCall)
    requires FamilyPlan(d, p, c).Wait?
    ensures !WaitReturns(d, p)
  {
  }

  // While wait_lock is free, a process sleeps in wait only if it has children and none is a zombie.
  lemma ZombieNotMissed(n: nat, run: seq<State<Family>>, es: seq<Event<FamilyCall>>, k: nat, q: nat)
    requires IsRun(Families(n), run, es) && k < |run| && q < |run[k].st| && run[k].holder.None?
    requires run[k].st[q].Sleeping?
    ensures !Reapable(run[k].data, q)
  {
    FamilyDisciplined(n);
    NoLostWakeup(Families(n), run, es, k, q);
  }
}
