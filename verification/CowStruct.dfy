/**
  Every step of the copy-on-write machine keeps its structural invariant.
 */
module CowStruct {
  import opened Optional
  import opened CowModel
  import opened CowInvariant

  ghost predicate SameSlot(s: State, s': State, sl: Slot)
  {
    && (sl in s.pt <==> sl in s'.pt)
    && (sl in s.pt && sl in s'.pt ==> s.pt[sl] == s'.pt[sl])
  }

  // A step of t changes only t's control point, t's space and the space t works on.
  ghost predicate Touch(s: State, s': State, t: Asid)
  {
    && t in s.threads && s'.threads.Keys == s.threads.Keys && s'.zombies == s.zombies
    && s'.ref.Keys == s.ref.Keys
    && (forall t' :: t' in s.threads && t' != t ==> s'.threads[t'] == s.threads[t'])
    && (forall a :: a in s.sz && a != t && Some(a) != Target(s.threads[t].op) ==> a in s'.sz && s'.sz[a] == s.sz[a])
    && (forall sl: Slot :: sl.a in s.sz && sl.a != t && Some(sl.a) != Target(s.threads[t].op) ==> SameSlot(s, s', sl))
  }

  // What the step owes about t itself.
  ghost predicate Local(s: State, s': State, t: Asid)
    requires t in s.threads && t in s'.threads
  {
    var op, c := s'.threads[t].op, Target(s'.threads[t].op);
    && t in s'.sz && OpOk(s', t, op) && SubOk(s', t, op, s'.threads[t].sub)
    && (forall v: nat :: Slot(t, v) in s'.pt <==> OwnPage(op, s'.sz[t], v))
    && (c.Some? ==>
          && (c == Target(s.threads[t].op) || c.value !in s.sz) && c.value in s'.sz
          && (forall v: nat :: Slot(c.value, v) in s'.pt <==> TargetPage(op, v)))
  }

  lemma OpFrame(s: State, s': State, t: Asid, op: Op, sub: Sub)
    requires t in s.sz && t in s'.sz && s.sz[t] == s'.sz[t] && s.ref.Keys == s'.ref.Keys
    requires OpOk(s, t, op) && SubOk(s, t, op, sub)
    requires forall v: nat :: SameSlot(s, s', Slot(t, v))
    requires Target(op).Some? ==> forall v: nat :: SameSlot(s, s', Slot(Target(op).value, v))
    ensures OpOk(s', t, op) && SubOk(s', t, op, sub)
  {
    match op
    case Fork(c, i, st) =>
      assert SameSlot(s, s', Slot(t, i));
      forall v: nat | Slot(c, v) in s'.pt
        ensures Slot(t, v) in s'.pt && s'.pt[Slot(c, v)] == s'.pt[Slot(t, v)]
      {
        assert SameSlot(s, s', Slot(c, v)) && SameSlot(s, s', Slot(t, v));
      }
    case CowSole(v) => assert SameSlot(s, s', Slot(t, v));
    case CowNeed(v, out) => assert SameSlot(s, s', Slot(t, v));
    case CowHave(v, p, out) => assert SameSlot(s, s', Slot(t, v));
    case CowCopied(v, p, out) => assert SameSlot(s, s', Slot(t, v));
    case CopyBytes(v, f, rw) => assert SameSlot(s, s', Slot(t, v));
    case Unmap(sp, j, hi, fin) => assert SameSlot(s, s', Slot(sp, j));
    case _ =>
  }

  lemma OpsKept(s: State, s': State, t: Asid)
    requires Shape(s) && Workers(s) && Ops(s) && Touch(s, s', t) && Local(s, s', t)
    ensures Ops(s')
  {
    forall t' | t' in s'.threads && t' in s'.sz
      ensures OpOk(s', t', s'.threads[t'].op) && SubOk(s', t', s'.threads[t'].op, s'.threads[t'].sub)
    {
      if t' != t {
        assert OpOk(s, t', s.threads[t'].op) && SubOk(s, t', s.threads[t'].op, s.threads[t'].sub);
        OpFrame(s, s', t', s'.threads[t'].op, s'.threads[t'].sub);
      }
    }
  }

  lemma SpansKept(s: State, s': State, t: Asid)
    requires Shape(s) && Workers(s) && Spans(s) && Touch(s, s', t) && Local(s, s', t)
    ensures Spans(s')
  {
    forall t', v: nat | t' in s'.threads && t' in s'.sz
      ensures Slot(t', v) in s'.pt <==> OwnPage(s'.threads[t'].op, s'.sz[t'], v)
    {
      if t' != t { assert SameSlot(s, s', Slot(t', v)); }
    }
    forall t', v: nat | t' in s'.threads && Target(s'.threads[t'].op).Some?
      ensures Slot(Target(s'.threads[t'].op).value, v) in s'.pt <==> TargetPage(s'.threads[t'].op, v)
    {
      if t' != t { assert SameSlot(s, s', Slot(Target(s'.threads[t'].op).value, v)); }
    }
    forall z, v: nat | z in s'.zombies && z in s'.sz
      ensures Slot(z, v) in s'.pt <==> v < s'.sz[z]
    {
      assert SameSlot(s, s', Slot(z, v));
    }
  }

  // What the structural invariant says about t itself.
  ghost predicate Mine(s: State, t: Asid)
  {
    && t in s.threads && t in s.sz && OpOk(s, t, s.threads[t].op) && SubOk(s, t, s.threads[t].op, s.threads[t].sub)
    && (forall v: nat :: Slot(t, v) in s.pt <==> OwnPage(s.threads[t].op, s.sz[t], v))
    && (Target(s.threads[t].op).Some? ==>
          var c := Target(s.threads[t].op).value;
          && c in s.sz && c !in s.threads && c !in s.zombies
          && (forall v: nat :: Slot(c, v) in s.pt <==> TargetPage(s.threads[t].op, v)))
  }

  ghost predicate Step(s: State, s': State, t: Asid)
  {
    Touch(s, s', t) && Local(s, s', t) && Shape(s')
  }

  lemma StructKept(s: State, s': State, t: Asid)
    requires Struct(s) && Step(s, s', t)
    ensures Struct(s')
  {
    OpsKept(s, s', t);
    SpansKept(s, s', t);
  }

  // ----- steps that leave every page table alone -----

  ghost predicate MemOk(s: State, s': State)
  {
    && s'.ref.Keys == s.ref.Keys && s'.mem.Keys == s.ref.Keys && s'.kern <= s.ref.Keys
    && (forall pg :: pg in s'.mem ==> |s'.mem[pg]| == PGSIZE)
  }

  lemma ControlStep(s: State, s': State, t: Asid)
    requires Shape(s) && Mine(s, t) && MemOk(s, s')
    requires s'.pt == s.pt && s'.sz == s.sz && s'.zombies == s.zombies
    requires t in s'.threads && s'.threads == s.threads[t := s'.threads[t]]
    requires Target(s'.threads[t].op) == Target(s.threads[t].op)
    requires forall v: nat :: OwnPage(s'.threads[t].op, s.sz[t], v) <==> OwnPage(s.threads[t].op, s.sz[t], v)
    requires forall v: nat :: TargetPage(s'.threads[t].op, v) <==> TargetPage(s.threads[t].op, v)
    requires OpOk(s', t, s'.threads[t].op) && SubOk(s', t, s'.threads[t].op, s'.threads[t].sub)
    ensures Step(s, s', t)
  {
  }

  lemma StepStore(s: State, t: Asid, v: nat, off: nat, b: int)
    requires Shape(s) && Mine(s, t) && CanStore(s, t, v, off)
    ensures Step(s, DoStore(s, t, v, off, b), t)
  {
    var s' := DoStore(s, t, v, off, b);
    assert s'.threads == s.threads[t := s.threads[t]];
    ControlStep(s, s', t);
  }

  lemma StepFault(s: State, t: Asid, v: nat, off: nat)
    requires Shape(s) && Mine(s, t) && CanFault(s, t, v, off) && s.ref[s.pt[Slot(t, v)].pa] >= 1
    ensures Step(s, DoFault(s, t, v, off), t)
  {
    assert OwnPage(Idle, s.sz[t], v);
    ControlStep(s, DoFault(s, t, v, off), t);
  }

  lemma StepCopyoutStart(s: State, t: Asid, v: nat, f: Write)
    requires Shape(s) && Mine(s, t) && CanCopyoutStart(s, t, v, f) && s.ref[s.pt[Slot(t, v)].pa] >= 1
    ensures Step(s, DoCopyoutStart(s, t, v, f), t)
  {
    assert OwnPage(Idle, s.sz[t], v);
    ControlStep(s, DoCopyoutStart(s, t, v, f), t);
  }

  lemma StepCopyoutBytes(s: State, t: Asid)
    requires Shape(s) && Mine(s, t) && CanCopyoutBytes(s, t)
    ensures Step(s, DoCopyoutBytes(s, t), t)
  {
    var op, s' := s.threads[t].op, DoCopyoutBytes(s, t);
    assert |Splice(s.mem[s.pt[Slot(t, op.v)].pa], op.f)| == PGSIZE;
    ControlStep(s, s', t);
  }

  lemma StepPop(s: State, t: Asid, dest: Dest)
    requires Shape(s) && Mine(s, t) && CanPop(s, t, dest) && s.free[0] in s.ref
    ensures Step(s, DoPop(s, t, dest), t)
  {
    var op, s' := s.threads[t].op, DoPop(s, t, dest);
    assert OpOk(s', t, op) by { OpFrame(s, s', t, op, NoSub); }
    ControlStep(s, s', t);
  }

  lemma StepPopFail(s: State, t: Asid)
    requires Shape(s) && Mine(s, t) && CanPopFail(s, t)
    requires s.threads[t].op.CowNeed? ==> s.threads[t].op.out.Some?
    requires t in s.bytes && s.sz[t] == Pages(s.bytes[t])
    ensures Step(s, DoPopFail(s, t), t)
  {
    var op, s' := s.threads[t].op, DoPopFail(s, t);
    match op
    case CowNeed(v, out) => ControlStep(s, s', t);
    case Grow(a, target, perm) => ControlStep(s, s', t);
    case GrowHave(a, target, perm, p) => ControlStep(s, s', t);
    case Fork(c, i, st) => ControlStep(s, s', t);
  }

  lemma StepSetRef(s: State, t: Asid)
    requires Shape(s) && Mine(s, t) && CanSetRef(s, t)
    ensures Step(s, DoSetRef(s, t), t)
  {
    var op, s' := s.threads[t].op, DoSetRef(s, t);
    if s.threads[t].sub.dest.ToKernel? {
      OpFrame(s, s', t, op, NoSub);
    }
    ControlStep(s, s', t);
  }

  lemma StepCopyPage(s: State, t: Asid)
    requires Shape(s) && Mine(s, t) && CanCopyPage(s, t)
    ensures Step(s, DoCopyPage(s, t), t)
  {
    ControlStep(s, DoCopyPage(s, t), t);
  }

  lemma StepKernFree(s: State, t: Asid, pg: Page)
    requires Shape(s) && Mine(s, t) && CanKernFree(s, t, pg) && s.ref[pg] >= 1
    ensures Step(s, DoKernFree(s, t, pg), t)
  {
    OpFrame(s, DoKernFree(s, t, pg), t, s.threads[t].op, NoSub);
    ControlStep(s, DoKernFree(s, t, pg), t);
  }

  lemma StepFreeCheck(s: State, t: Asid)
    requires Shape(s) && Mine(s, t) && CanFreeCheck(s, t) && !DoFreeCheck(s, t).stuck
    ensures Step(s, DoFreeCheck(s, t), t)
  {
    OpFrame(s, DoFreeCheck(s, t), t, s.threads[t].op, NoSub);
    ControlStep(s, DoFreeCheck(s, t), t);
  }

  lemma StepFreeDec(s: State, t: Asid)
    requires Shape(s) && Mine(s, t) && CanFreeDec(s, t) && s.ref[s.threads[t].sub.pg] >= 1
    ensures Step(s, DoFreeDec(s, t), t)
  {
    hide OpOk, Target, OwnPage, TargetPage;
    OpFrame(s, DoFreeDec(s, t), t, s.threads[t].op, s.threads[t].sub);
    ControlStep(s, DoFreeDec(s, t), t);
  }

  lemma StepFreePush(s: State, t: Asid)
    requires Shape(s) && Mine(s, t) && CanFreePush(s, t)
    ensures Step(s, DoFreePush(s, t), t)
  {
    OpFrame(s, DoFreePush(s, t), t, s.threads[t].op, s.threads[t].sub);
    ControlStep(s, DoFreePush(s, t), t);
  }

  // uvmdealloc takes back what a failed growth has mapped; the size stays.
  lemma StepGrowUndo(s: State, t: Asid)
    requires Shape(s) && Mine(s, t) && CanFreeDone(s, t) && s.threads[t].op.GrowDrop?
    requires t in s.bytes && s.sz[t] == Pages(s.bytes[t])
    ensures Step(s, DoFreeDone(s, t), t)
  {
    ControlStep(s, DoFreeDone(s, t), t);
  }

  lemma StepForkInc(s: State, t: Asid)
    requires Shape(s) && Mine(s, t) && CanForkInc(s, t)
    ensures Step(s, DoForkInc(s, t), t)
  {
    ControlStep(s, DoForkInc(s, t), t);
  }

  lemma StepGrowStart(s: State, t: Asid, target: nat, perm: Perm)
    requires Shape(s) && Mine(s, t) && CanGrowStart(s, t, target, perm) && s.sz[t] <= Pages(target)
    ensures Step(s, DoGrowStart(s, t, target, perm), t)
  {
    ControlStep(s, DoGrowStart(s, t, target, perm), t);
  }

  lemma StepShrinkStart(s: State, t: Asid, n: nat)
    requires Shape(s) && Mine(s, t) && CanShrinkStart(s, t, n) && Pages(n) <= s.sz[t]
    ensures Step(s, DoShrinkStart(s, t, n), t)
  {
    ControlStep(s, DoShrinkStart(s, t, n), t);
  }

  // ----- steps that change a page table or a size -----

  // One PTE of t, or of the space t works on, is set or removed.
  lemma SlotStep(s: State, s': State, t: Asid, sl: Slot)
    requires Shape(s) && Mine(s, t) && MemOk(s, s')
    requires s'.sz == s.sz && s'.zombies == s.zombies
    requires t in s'.threads && s'.threads == s.threads[t := s'.threads[t]]
    requires Target(s'.threads[t].op) == Target(s.threads[t].op)
    requires sl.a == t || Some(sl.a) == Target(s.threads[t].op)
    requires forall x :: x != sl ==> SameSlot(s, s', x)
    requires sl in s'.pt ==> s'.pt[sl].pa in s.ref && s'.pt[sl].perm.r && (s'.pt[sl].cow ==> !s'.pt[sl].perm.w)
    requires forall v: nat :: Slot(t, v) in s'.pt <==> OwnPage(s'.threads[t].op, s.sz[t], v)
    requires Target(s.threads[t].op).Some? ==>
      forall v: nat :: Slot(Target(s.threads[t].op).value, v) in s'.pt <==> TargetPage(s'.threads[t].op, v)
    requires OpOk(s', t, s'.threads[t].op) && SubOk(s', t, s'.threads[t].op, s'.threads[t].sub)
    ensures Step(s, s', t)
  {
    assert Shape(s') by {
      forall x | x in s'.pt
        ensures x.a in s'.sz && s'.pt[x].pa in s'.ref && s'.pt[x].perm.r && (s'.pt[x].cow ==> !s'.pt[x].perm.w)
      {
        if x != sl { assert SameSlot(s, s', x); }
      }
    }
  }

  lemma StepTakeSole(s: State, t: Asid)
    requires Shape(s) && Mine(s, t) && CanTakeSole(s, t)
    ensures Step(s, DoTakeSole(s, t), t)
  {
    SlotStep(s, DoTakeSole(s, t), t, Slot(t, s.threads[t].op.v));
  }

  // The shared PTE becomes a private one.
  lemma StepRemap(s: State, t: Asid)
    requires Shape(s) && Mine(s, t) && CanFreeDone(s, t) && s.threads[t].op.CowCopied?
    ensures Step(s, DoFreeDone(s, t), t)
  {
    SlotStep(s, DoFreeDone(s, t), t, Slot(t, s.threads[t].op.v));
  }

  lemma StepUnmap(s: State, t: Asid)
    requires Shape(s) && Mine(s, t) && CanFreeDone(s, t) && s.threads[t].op.Unmap?
    ensures Step(s, DoFreeDone(s, t), t)
  {
    var op, s' := s.threads[t].op, DoFreeDone(s, t);
    assert s'.pt == s.pt - {Slot(op.sp, op.j)};
    SlotStep(s, s', t, Slot(op.sp, op.j));
  }

  lemma StepUnmapDone(s: State, t: Asid)
    requires Shape(s) && Mine(s, t) && CanUnmapDone(s, t)
    ensures Step(s, DoUnmapDone(s, t), t)
  {
    var op, s' := s.threads[t].op, DoUnmapDone(s, t);
    if op.fin.Delete? {
      forall sl | sl in s.pt ensures sl.a != op.sp {
        assert sl == Slot(sl.a, sl.v);
      }
    }
    assert Shape(s');
  }

  lemma StepForkStart(s: State, t: Asid, child: Asid)
    requires Shape(s) && Mine(s, t) && CanForkStart(s, t, child)
    ensures Step(s, DoForkStart(s, t, child), t)
  {
  }

  lemma StepForkProtect(s: State, t: Asid)
    requires Shape(s) && Mine(s, t) && CanForkProtect(s, t)
    ensures Step(s, DoForkProtect(s, t), t)
  {
    SlotStep(s, DoForkProtect(s, t), t, Slot(t, s.threads[t].op.i));
  }

  lemma StepForkMap(s: State, t: Asid)
    requires Shape(s) && Mine(s, t) && CanForkMap(s, t)
    ensures Step(s, DoForkMap(s, t), t)
  {
    SlotStep(s, DoForkMap(s, t), t, Slot(s.threads[t].op.child, s.threads[t].op.i));
  }

  lemma StepGrowMap(s: State, t: Asid)
    requires Shape(s) && Mine(s, t) && CanGrowMap(s, t)
    ensures Step(s, DoGrowMap(s, t), t)
  {
    SlotStep(s, DoGrowMap(s, t), t, Slot(t, s.threads[t].op.a));
  }

  lemma StepGrowDone(s: State, t: Asid)
    requires Shape(s) && Mine(s, t) && CanGrowDone(s, t)
    ensures Step(s, DoGrowDone(s, t), t)
  {
  }

  lemma StepClearUser(s: State, t: Asid, v: nat)
    requires Shape(s) && Mine(s, t) && CanClearUser(s, t, v)
    ensures Step(s, DoClearUser(s, t, v), t)
  {
    assert DoClearUser(s, t, v).threads == s.threads[t := s.threads[t]];
    SlotStep(s, DoClearUser(s, t, v), t, Slot(t, v));
  }

  // ----- steps that change the set of processes -----

  // The processes other than t and c are untouched.
  lemma OpsOthers(s: State, s': State, t: Asid, c: Asid)
    requires Shape(s) && Workers(s) && Ops(s) && s'.pt == s.pt && s'.ref == s.ref
    requires forall t' :: t' in s'.threads && t' != t && t' != c ==>
      t' in s.threads && s'.threads[t'] == s.threads[t'] && t' in s'.sz && s'.sz[t'] == s.sz[t']
    requires t in s'.threads ==> s'.threads[t].sub.NoSub? && (t in s'.sz ==> OpOk(s', t, s'.threads[t].op))
    requires c in s'.threads ==> s'.threads[c].sub.NoSub? && (c in s'.sz ==> OpOk(s', c, s'.threads[c].op))
    ensures Ops(s')
  {
    forall t' | t' in s'.threads && t' in s'.sz
      ensures OpOk(s', t', s'.threads[t'].op) && SubOk(s', t', s'.threads[t'].op, s'.threads[t'].sub)
    {
      if t' != t && t' != c { OpFrame(s, s', t', s.threads[t'].op, s.threads[t'].sub); }
    }
  }

  lemma StructDie(s: State, t: Asid)
    requires Struct(s) && t in s.threads && s.threads[t].sub.NoSub?
    requires (s.threads[t].op.Idle? || s.threads[t].op.CowNeed?)
    ensures Struct(Die(s, t))
  {
    OpsOthers(s, Die(s, t), t, t);
  }

  lemma StructReap(s: State, t: Asid, z: Asid)
    requires Struct(s) && CanReap(s, t, z)
    ensures Struct(DoReap(s, t, z))
  {
    OpsOthers(s, DoReap(s, t, z), t, t);
  }

  lemma StructForkDone(s: State, t: Asid)
    requires Struct(s) && CanForkDone(s, t)
    ensures Struct(DoForkDone(s, t))
  {
    var c, s' := s.threads[t].op.child, DoForkDone(s, t);
    OpsOthers(s, s', t, c);
    SpansForkDone(s, t);
  }

  lemma SpansForkDone(s: State, t: Asid)
    requires Shape(s) && Workers(s) && Spans(s) && CanForkDone(s, t)
    ensures Shape(DoForkDone(s, t)) && Workers(DoForkDone(s, t)) && Spans(DoForkDone(s, t))
  {
    var c, s' := s.threads[t].op.child, DoForkDone(s, t);
    assert Target(s.threads[t].op) == Some(c);
    forall v: nat ensures Slot(c, v) in s'.pt <==> v < s'.sz[c] {
      assert Slot(c, v) in s.pt <==> TargetPage(s.threads[t].op, v);
    }
  }

  lemma StructMem(s: State, pa: Page, d: Data)
    requires Struct(s) && pa in s.mem && |d| == PGSIZE
    ensures Struct(s.(mem := s.mem[pa := d]))
  {
    hide OpOk, SubOk;
    var s' := s.(mem := s.mem[pa := d]);
    forall t | t in s'.threads && t in s'.sz
      ensures OpOk(s', t, s'.threads[t].op) && SubOk(s', t, s'.threads[t].op, s'.threads[t].sub)
    {
      OpFrame(s, s', t, s.threads[t].op, s.threads[t].sub);
    }
  }
}
