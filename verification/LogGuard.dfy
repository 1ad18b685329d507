/**
  log_write's "too big a transaction" panic, exactly.  The guard comes before
  log absorption, so a full log panics on every write, also on one that would
  add no block: with log.size > LOGSIZE a write panics if and only if LOGSIZE
  blocks are logged, and then every reservation is spent and the write is a
  rewrite.  Writers that have reservation left can meet the panic if and only
  if log.size <= LOGSIZE.
 */
module LogGuard {
  import opened Log
  import opened LogRun

  // ----- one write -----

  // Every active operation has logged all the blocks it may.
  predicate AllSpent(s: State)
  {
    forall i :: 0 <= i < |s.ops| ==> |s.ops[i].written| == MAXOPBLOCKS
  }

  lemma {:induction false} NothingUnused(ops: seq<Active>, i: nat)
    requires i < |ops| && Unused(ops) == 0 && forall j :: 0 <= j < |ops| ==> |ops[j].written| <= MAXOPBLOCKS
    ensures |ops[i].written| == MAXOPBLOCKS
  {
    var rest := ops[..|ops| - 1];
    UnusedBound(rest);
    if i < |ops| - 1 {
      NothingUnused(rest, i);
    }
  }

  lemma FullRewrites(written: set<int>, b: int)
    requires |written| == MAXOPBLOCKS && |written + {b}| <= MAXOPBLOCKS
    ensures b in written
  {
    assert b in written ==> written + {b} == written;
    assert |written + {b}| == |written| + if b in written then 0 else 1;
  }

  // When a write of any run panics.  An operation may rewrite its own blocks with its reservation spent.
  lemma WritePanicsExactly(g: Layout, run: seq<State>, es: seq<Event>, k: nat)
    requires IsRun(g, run, es) && k < |es| && es[k].Write?
    ensures run[k + 1].panicked <==> |run[k].lh| == LOGSIZE || |run[k].lh| >= g.size - 1
    ensures g.size > LOGSIZE ==> (run[k + 1].panicked <==> |run[k].lh| == LOGSIZE)
    ensures es[k].i < |run[k].ops|
    ensures |run[k].lh| == LOGSIZE ==> AllSpent(run[k]) && es[k].b in run[k].ops[es[k].i].written
  {
    hide Grouped, Stored, Unused;
    var s, e := run[k], es[k];
    assert run[k + 1] == Do(g, s, e) && Enabled(g, s, e);
    RunInv(g, run, es, k);
    UnusedBound(s.ops);
    if |s.lh| == LOGSIZE {
      forall i | 0 <= i < |s.ops| ensures |s.ops[i].written| == MAXOPBLOCKS {
        NothingUnused(s.ops, i);
      }
      FullRewrites(s.ops[e.i].written, e.b);
    }
  }

  // ----- writers with reservation left -----

  predicate Frugal(s: State, e: Event)
  {
    e.Write? && e.i < |s.ops| ==> |s.ops[e.i].written| < MAXOPBLOCKS
  }

  ghost predicate FrugalRun(g: Layout, run: seq<State>, es: seq<Event>)
  {
    IsRun(g, run, es) && forall i :: 0 <= i < |es| ==> Frugal(run[i], es[i])
  }

  lemma {:induction false} BigLogNeverPanics(g: Layout, run: seq<State>, es: seq<Event>, k: nat)
    requires FrugalRun(g, run, es) && g.size > LOGSIZE && k < |run|
    ensures !run[k].panicked
  {
    hide Reserved, Grouped, Unused, CommitTrace, RecoveryTrace, Recovered;
    if k > 0 {
      BigLogNeverPanics(g, run, es, k - 1);
      var s, e := run[k - 1], es[k - 1];
      assert run[k - 1 + 1] == Do(g, s, e) && Frugal(s, e);
      RunInv(g, run, es, k - 1);
      ReservationHolds(g, run, es, k - 1);
    }
  }

  // ----- the run that fills the log -----

  lemma Extend(g: Layout, run: seq<State>, es: seq<Event>, e: Event) returns (run': seq<State>, es': seq<Event>)
    requires FrugalRun(g, run, es) && Enabled(g, run[|run| - 1], e) && Frugal(run[|run| - 1], e)
    ensures FrugalRun(g, run', es') && run'[|run'| - 1] == Do(g, run[|run| - 1], e)
  {
    hide Enabled, Do, Boot;
    run', es' := run + [Do(g, run[|run| - 1], e)], es + [e];
    forall i | 0 <= i < |es'|
      ensures Enabled(g, run'[i], es'[i]) && run'[i + 1] == Do(g, run'[i], es'[i]) && Frugal(run'[i], es'[i])
    {
      if i < |es| {
        assert run'[i] == run[i] && run'[i + 1] == run[i + 1] && es'[i] == es[i];
      }
    }
  }

  function ZeroBlock(): (b: Block)
    ensures |b| == WORDS
  {
    seq(WORDS, _ => 0)
  }

  // There are home blocks to fill the log with.
  ghost predicate Roomy(g: Layout)
  {
    ValidLayout(g) && g.start + 2 * g.size <= g.blocks
  }

  // The home blocks used, in order.
  function Target(g: Layout, j: nat): int
  {
    g.start + g.size + j
  }

  // Three operations are active and have together logged j blocks, ten each.
  ghost predicate Filled(g: Layout, s: State, j: nat)
  {
    && s.phase.Running? && !s.panicked && |s.ops| == 3
    && |s.lh| == j && (forall i :: 0 <= i < j ==> s.lh[i] == Target(g, i))
    && (forall i :: 0 <= i < 3 ==> |s.ops[i].written| == Share(j, i) && forall b :: b in s.ops[i].written ==> b in s.lh)
    && (j > 0 ==> Target(g, 0) in s.ops[0].written)
  }

  function Share(j: nat, i: nat): nat
  {
    if j <= 10 * i then 0 else if j < 10 * i + 10 then j - 10 * i else 10
  }

  lemma ThreeBegin(g: Layout) returns (run: seq<State>, es: seq<Event>)
    requires Roomy(g)
    ensures FrugalRun(g, run, es) && Filled(g, run[|run| - 1], 0)
  {
    hide Recovered, Installed;
    var d: Disk := seq(g.blocks, _ => ZeroBlock());
    EmptyHead(g, d);
    RecoveryEnds(g, d);
    var s := State(d, map[], [], [], Recovering(d, 0), false, 0, [], [], []);
    run, es := [s], [];
    run, es := Extend(g, run, es, RecoverStep);
    run, es := Extend(g, run, es, RecoverDone);
    run, es := Extend(g, run, es, Begin);
    run, es := Extend(g, run, es, Begin);
    run, es := Extend(g, run, es, Begin);
  }

  lemma {:induction false} FillLog(g: Layout, j: nat) returns (run: seq<State>, es: seq<Event>)
    requires Roomy(g) && j < g.size && j <= LOGSIZE
    ensures FrugalRun(g, run, es) && Filled(g, run[|run| - 1], j)
  {
    if j == 0 {
      run, es := ThreeBegin(g);
    } else {
      run, es := FillLog(g, j - 1);
      FillOne(g, run[|run| - 1], j - 1);
      run, es := Extend(g, run, es, Write((j - 1) / 10, Target(g, j - 1), ZeroBlock()));
    }
  }

  lemma FillOne(g: Layout, s: State, j: nat)
    requires Roomy(g) && j + 1 < g.size && j < LOGSIZE && Filled(g, s, j)
    ensures var e := Write(j / 10, Target(g, j), ZeroBlock());
      Enabled(g, s, e) && Frugal(s, e) && Filled(g, Do(g, s, e), j + 1)
  {
    var i, b := j / 10, Target(g, j);
    assert b !in s.lh;
    assert b !in s.ops[i].written;
    assert |s.ops[i].written| == Share(j, i) == j - 10 * i;
  }

  // With log.size <= LOGSIZE the guard fires on an operation that has reservation left.
  lemma SmallLogPanics(g: Layout) returns (run: seq<State>, es: seq<Event>)
    requires Roomy(g) && g.size <= LOGSIZE
    ensures FrugalRun(g, run, es) && run[|run| - 1].panicked
  {
    var j: nat := g.size - 1;
    run, es := FillLog(g, j);
    var s := run[|run| - 1];
    var i := j / 10;
    assert |s.ops[i].written| == Share(j, i) == j - 10 * i;
    run, es := Extend(g, run, es, Write(i, Target(g, j), ZeroBlock()));
  }

  // However big the log is, a rewrite panics once three operations have logged ten blocks each.
  lemma BigLogPanicsToo(g: Layout) returns (run: seq<State>, es: seq<Event>)
    requires Roomy(g) && g.size > LOGSIZE
    ensures IsRun(g, run, es) && run[|run| - 1].panicked
  {
    run, es := FillLog(g, LOGSIZE);
    var s := run[|run| - 1];
    assert |s.ops[0].written| == Share(LOGSIZE, 0) == 10;
    assert s.ops[0].written + {Target(g, 0)} == s.ops[0].written;
    run, es := Rewrite(g, run, es, Target(g, 0));
  }

  lemma Rewrite(g: Layout, run: seq<State>, es: seq<Event>, b: int) returns (run': seq<State>, es': seq<Event>)
    requires IsRun(g, run, es) && Enabled(g, run[|run| - 1], Write(0, b, ZeroBlock())) && |run[|run| - 1].lh| == LOGSIZE
    ensures IsRun(g, run', es') && run'[|run'| - 1].panicked
  {
    hide Enabled, Boot;
    var e := Write(0, b, ZeroBlock());
    run', es' := run + [Do(g, run[|run| - 1], e)], es + [e];
    forall i | 0 <= i < |es'| ensures Enabled(g, run'[i], es'[i]) && run'[i + 1] == Do(g, run'[i], es'[i]) {
      if i < |es| {
        assert run'[i] == run[i] && run'[i + 1] == run[i + 1] && es'[i] == es[i];
      }
    }
  }

  ghost predicate FrugalPanic(g: Layout)
  {
    exists run: seq<State>, es: seq<Event> :: FrugalRun(g, run, es) && run[|run| - 1].panicked
  }

  ghost predicate SomePanic(g: Layout)
  {
    exists run: seq<State>, es: seq<Event> :: IsRun(g, run, es) && run[|run| - 1].panicked
  }

  // Operations within their reservation meet the panic for every log size; mkfs writes
  // log.size = LOGSIZE, for which reservation left does not help.
  lemma GuardExact(g: Layout)
    requires Roomy(g)
    ensures SomePanic(g)
    ensures FrugalPanic(g) <==> g.size <= LOGSIZE
  {
    hide Enabled, Do, Boot;
    if g.size <= LOGSIZE {
      var run, es := SmallLogPanics(g);
    } else {
      var run0, es0 := BigLogPanicsToo(g);
      if FrugalPanic(g) {
        var run: seq<State>, es: seq<Event> :| FrugalRun(g, run, es) && run[|run| - 1].panicked;
        BigLogNeverPanics(g, run, es, |run| - 1);
      }
    }
  }
}
