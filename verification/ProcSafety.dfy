/**
  Every step of the process table keeps its invariant.
 */
module ProcSafety {
  import opened Optional
  import opened ProcTable

  // ----- what a process step must respect, seen from its own slots -----

  predicate Switched(pc: PC)
  {
    pc.Away? || pc.NoThread?
  }

  // A lock changes hands only between free and CPU c.
  predicate LockMoves(old_: Option<nat>, new_: Option<nat>, c: nat)
  {
    new_ == old_ || ((old_.None? || old_ == Some(c)) && (new_.None? || new_ == Some(c)))
  }

  // The other slot keeps its position, or stays off every CPU.
  predicate OtherOk(old_: Proc, y: Proc)
  {
    Fits(y) && !(y.pc.InSched? && y.pc.why.New?) && (y.pc == old_.pc || (Switched(y.pc) && Switched(old_.pc)))
  }

  ghost predicate LocalOk(s: State, c: nat, ch: Change, wait': Option<nat>)
    requires On(s, c) && ch.q < |s.procs|
  {
    var p, pc, q := Me(s, c), Pc(s, c), ch.q;
    && !Switched(ch.x.pc) && !ch.x.pc.Back? && Fits(ch.x) && !(ch.x.pc.InSched? && ch.x.pc.why.New?)
    && (q != p ==> OtherOk(s.procs[q], ch.y))
    && ch.noff == Depth(ch.x.pc)
    && LockMoves(s.procs[p].lock, ch.x.lock, c) && (ch.x.lock == Some(c) <==> HoldsLock(p, ch.x.pc, p))
    && (q != p ==> LockMoves(s.procs[q].lock, ch.y.lock, c) && (ch.y.lock == Some(c) <==> HoldsLock(p, ch.x.pc, q)))
    && (forall r: nat :: r != p && r != q ==> (HoldsLock(p, ch.x.pc, r) <==> HoldsLock(p, pc, r)))
    && LockMoves(s.wait, wait', c) && (wait' == Some(c) <==> HoldsWait(ch.x.pc))
  }

  ghost predicate Stepped(s: State, c: nat, ch: Change, s': State)
    requires On(s, c) && ch.q < |s.procs|
  {
    s'.procs == s.procs[ch.q := ch.y][Me(s, c) := ch.x] && s'.cpus == s.cpus[c := Nest(s.cpus[c], ch.noff)]
  }

  lemma RunningKept(s: State, c: nat, ch: Change, s': State)
    requires Running(s) && On(s, c) && ch.q < |s.procs| && LocalOk(s, c, ch, s'.wait) && Stepped(s, c, ch, s')
    ensures Running(s')
  {
    forall d | 0 <= d < |s'.cpus| && s'.cpus[d].running.Some?
      ensures s'.cpus[d].running.value < |s'.procs| && s'.cpus[d].sched.Idle?
      ensures !Switched(s'.procs[s'.cpus[d].running.value].pc)
    {
      assert s'.cpus[d].running == s.cpus[d].running;
    }
  }

  // Another CPU's view does not change.
  lemma OtherCpu(s: State, c: nat, ch: Change, s': State, d: nat)
    requires Running(s) && On(s, c) && ch.q < |s.procs| && LocalOk(s, c, ch, s'.wait) && Stepped(s, c, ch, s')
    requires d < |s.cpus| && d != c
    ensures On(s', d) <==> On(s, d)
    ensures On(s, d) ==> Me(s', d) == Me(s, d) != Me(s, c) && Pc(s', d) == Pc(s, d)
  {
    if On(s, d) {
      assert s.cpus[d].running != s.cpus[c].running;
      assert !Switched(s.procs[Me(s, d)].pc);
    }
  }

  lemma DepthsKept(s: State, c: nat, ch: Change, s': State)
    requires Running(s) && Depths(s) && On(s, c) && ch.q < |s.procs| && LocalOk(s, c, ch, s'.wait)
    requires Stepped(s, c, ch, s')
    ensures Depths(s')
  {
    forall d | 0 <= d < |s'.cpus|
      ensures s'.cpus[d].noff == if On(s', d) then Depth(Pc(s', d)) else if s'.cpus[d].sched.Idle? then 0 else 1
    {
      if d != c {
        OtherCpu(s, c, ch, s', d);
      }
    }
  }

  lemma MaskedKept(s: State, c: nat, ch: Change, s': State)
    requires Depths(s) && Masked(s) && On(s, c) && ch.q < |s.procs| && Stepped(s, c, ch, s')
    ensures Masked(s')
  {
  }

  lemma WaitKept(s: State, c: nat, ch: Change, s': State)
    requires Running(s) && WaitHeld(s) && On(s, c) && ch.q < |s.procs| && LocalOk(s, c, ch, s'.wait)
    requires Stepped(s, c, ch, s')
    ensures WaitHeld(s')
  {
    forall d | 0 <= d < |s'.cpus| ensures s'.wait == Some(d) <==> On(s', d) && HoldsWait(Pc(s', d)) {
      if d != c {
        OtherCpu(s, c, ch, s', d);
      }
    }
  }

  lemma LocksKept(s: State, c: nat, ch: Change, s': State)
    requires Running(s) && SlotLocks(s) && On(s, c) && ch.q < |s.procs| && LocalOk(s, c, ch, s'.wait)
    requires Stepped(s, c, ch, s')
    ensures SlotLocks(s')
  {
    forall d, r | 0 <= d < |s'.cpus| && 0 <= r < |s'.procs|
      ensures s'.procs[r].lock == Some(d) <==> CpuHolds(s', d, r)
    {
      assert s.procs[r].lock == Some(d) <==> CpuHolds(s, d, r);
      if d != c {
        OtherCpu(s, c, ch, s', d);
      }
    }
  }

  lemma StatesKept(s: State, c: nat, ch: Change, s': State)
    requires Running(s) && States(s) && On(s, c) && ch.q < |s.procs| && LocalOk(s, c, ch, s'.wait)
    requires Stepped(s, c, ch, s')
    ensures States(s')
  {
    var p := Me(s, c);
    forall r | 0 <= r < |s'.procs| && !Switched(s'.procs[r].pc) ensures OnSome(s', r) {
      if r == p {
        assert s'.cpus[c].running == Some(p);
      } else {
        assert OnSome(s, r);
        var d :| 0 <= d < |s.cpus| && s.cpus[d].running == Some(r);
        assert s'.cpus[d].running == Some(r);
      }
    }
  }

  // ----- fork -----

  // The step works on the child, slot q.
  predicate MakesChild(s: State, p: nat, pc: PC, x: Proc, q: nat, y: Proc)
    requires Forking(x.pc) && q < |s.procs|
  {
    && ChildOf(x.pc) == q != p && y.state.USED?
    && (if Linked(x.pc) then y.parent == Some(p) && y.creator == x.pid else y.parent.None?)
    && (if Forking(pc) then ChildOf(pc) == q else s.procs[q].state.UNUSED?)
  }

  ghost predicate ForkOk(s: State, c: nat, ch: Change)
    requires On(s, c) && ch.q < |s.procs|
  {
    var p, pc, q, x, y := Me(s, c), Pc(s, c), ch.q, ch.x, ch.y;
    && Mine(s, c).state.RUNNING? && x.pid == Mine(s, c).pid
    && (Forking(x.pc) ==> (q == p && Task(x.pc) == Task(pc)) || MakesChild(s, p, pc, x, q, y))
    && (q != p ==>
          || (y.state == s.procs[q].state && y.parent == s.procs[q].parent && y.creator == s.procs[q].creator)
          || !s.procs[q].state.USED? || (Forking(pc) && ChildOf(pc) == q) || s.procs[q].parent == Some(p))
    && (q != p && Live(s.procs[q]) ==> y.pid == s.procs[q].pid)
    && (q != p && Forking(y.pc) ==> y.pc == s.procs[q].pc && y.pid == s.procs[q].pid)
  }

  lemma ForksKept(s: State, c: nat, ch: Change, s': State)
    requires Forks(s) && On(s, c) && ch.q < |s.procs| && ForkOk(s, c, ch) && Stepped(s, c, ch, s')
    ensures Forks(s')
  {
    var p := Me(s, c);
    forall r | 0 <= r < |s'.procs| && Forking(s'.procs[r].pc)
      ensures NewChild(s', r, ChildOf(s'.procs[r].pc), Linked(s'.procs[r].pc))
    {
      if r != p {
        assert s'.procs[r].pc == s.procs[r].pc;
        assert NewChild(s, r, ChildOf(s.procs[r].pc), Linked(s.procs[r].pc));
      } else if ch.q == p {
        assert NewChild(s, p, ChildOf(s.procs[p].pc), Linked(s.procs[p].pc));
      }
    }
    forall r | 0 <= r < |s'.procs| && r != p && Forking(s'.procs[r].pc) && Forking(ch.x.pc)
      ensures ChildOf(s'.procs[r].pc) != ChildOf(ch.x.pc)
    {
      assert NewChild(s, r, ChildOf(s.procs[r].pc), Linked(s.procs[r].pc));
    }
  }

  // ----- parents -----

  ghost predicate ParentOk(s: State, c: nat, ch: Change, s': State)
    requires On(s, c) && ch.q < |s.procs|
  {
    var p, q, x, y := Me(s, c), ch.q, ch.x, ch.y;
    && x.parent == Mine(s, c).parent && !x.state.UNUSED?
    && (Live(x) || forall r :: 0 <= r < |s.procs| ==> s.procs[r].parent != Some(p))
    && (q != p ==>
          && (y.parent == s.procs[q].parent
               || ((s.procs[q].parent.None? || s.procs[q].parent == Some(p)) && NewParent(y.parent, p) && q != INIT))
          && (y.parent.Some? ==> !y.state.UNUSED?) && (y.parent == Some(p) ==> Live(x))
          && (Live(s.procs[q]) ==> Live(y)))
    && (x.pc.ExitCrit? ==> p != INIT && forall k :: 0 <= k < x.pc.k && k < |s'.procs| ==> s'.procs[k].parent != Some(p))
    && (x.pc.WaitChild? ==> IsChild(s', x.pc.k, p))
    && (p == INIT ==> Live(x))
  }

  predicate NewParent(v: Option<nat>, p: nat)
  {
    v.None? || v == Some(INIT) || v == Some(p)
  }

  lemma ParentsKept(s: State, c: nat, ch: Change, s': State)
    requires Parents(s) && On(s, c) && ch.q < |s.procs| && Stepped(s, c, ch, s') && ParentOk(s, c, ch, s')
    requires ch.q != Me(s, c) ==> OtherOk(s.procs[ch.q], ch.y)
    ensures Parents(s')
  {
    var p, q := Me(s, c), ch.q;
    forall r | 0 <= r < |s'.procs| && LiveSlot(s, r) && r != p ensures LiveSlot(s', r) {
    }
    forall r | 0 <= r < |s'.procs| && s'.procs[r].parent.Some?
      ensures LiveSlot(s', s'.procs[r].parent.value) && s'.procs[r].parent.value != r && !s'.procs[r].state.UNUSED?
    {
      assert r != q || q == p ==> s'.procs[r].parent == s.procs[r].parent;
    }
    forall r | 0 <= r < |s'.procs| && s'.procs[r].pc.WaitChild? ensures IsChild(s', s'.procs[r].pc.k, r) {
      if r != p {
        assert s'.procs[r].pc == s.procs[r].pc;
        assert IsChild(s, s.procs[r].pc.k, r);
      }
    }
    forall r, k | 0 <= r < |s'.procs| && s'.procs[r].pc.ExitCrit? && 0 <= k < s'.procs[r].pc.k && k < |s'.procs|
      ensures s'.procs[k].parent != Some(r)
    {
      if r != p {
        assert s'.procs[r].pc == s.procs[r].pc;
        assert s.procs[k].parent != Some(r);
      }
    }
  }

  ghost predicate KinOk(s: State, c: nat, ch: Change)
    requires On(s, c) && ch.q < |s.procs|
  {
    var p, q, x, y := Me(s, c), ch.q, ch.x, ch.y;
    && x.pid == Mine(s, c).pid && x.creator == Mine(s, c).creator && x.parent == Mine(s, c).parent
    && !Switched(Mine(s, c).pc)
    && (q != p && Live(s.procs[q]) ==> y.pid == s.procs[q].pid)
    && (q != p && !y.pc.NoThread? ==>
          || y.parent == Some(INIT)
          || (y.parent == s.procs[q].parent && y.creator == s.procs[q].creator && !s.procs[q].pc.NoThread?)
          || (y.parent == Some(p) && y.creator == x.pid))
  }

  lemma KinshipKept(s: State, c: nat, ch: Change, s': State)
    requires Parents(s) && Kinship(s) && On(s, c) && ch.q < |s.procs| && Stepped(s, c, ch, s') && KinOk(s, c, ch)
    ensures Kinship(s')
  {
    var p, q := Me(s, c), ch.q;
    forall r | 0 <= r < |s'.procs| && r != INIT && !s'.procs[r].pc.NoThread? ensures Kin(s', s'.procs[r]) {
      if (r != q || q == p) && (r != p) {
        assert Kin(s, s.procs[r]) && LiveSlot(s, s.procs[r].parent.value);
      } else if r == p {
        assert Kin(s, s.procs[p]) && LiveSlot(s, s.procs[p].parent.value);
      } else if !s.procs[q].pc.NoThread? {
        assert Kin(s, s.procs[q]) && LiveSlot(s, s.procs[q].parent.value);
      }
    }
  }
}
