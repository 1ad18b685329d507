/** sleep and wakeup, for any data protected by a spin lock lk. */
module SleepWakeup {
  import opened Optional

  // A process that finds its condition false goes to sleep on its channel, and a critical section
  // that may make a condition true calls wakeup on that channel somewhere between acquiring and
  // releasing lk.  Every lock operation is a step of its own.

  // What a critical section still has to do.
  datatype Act<D> = Assign(d: D) | Wakeup(chan: nat)

  // A section either runs to its release, or finds that it must sleep.
  datatype Plan<D> = Finish(acts: seq<Act<D>>) | Wait

  datatype System<!D, !C> = System(
    n: nat,                              // processes 0..n
    ready: (D, nat) -> bool,             // the condition process q waits for
    chan: nat -> nat,                    // the channel q sleeps on
    plan: (D, nat, C) -> Plan<D>)        // the code of section c run by process p on data d

  datatype PState<D> =
    | Outside
    | Holding(acts: seq<Act<D>>, scan: nat)  // holds lk; scan: progress of the wakeup in front
    | Locking                                // holds lk, decided to sleep
    | Both                                   // holds lk and p->lock
    | Dropped                                // released lk, holds p->lock
    | Marked                                 // p->state = SLEEPING, still holds p->lock
    | Sleeping
    | Woken                                  // made RUNNABLE by a wakeup

  // start and scanned describe the section in progress.
  datatype State<D> = State(data: D, holder: Option<nat>, st: seq<PState<D>>, start: D, scanned: set<nat>)

  datatype Event<C> =
    | Acquire(p: nat, c: C)
    | Set(p: nat)
    | ScanOne(p: nat)
    | ScanEnd(p: nat)
    | Release(p: nat)
    | LockSelf(p: nat)
    | Drop(p: nat)
    | Mark(p: nat)
    | Sched(p: nat)
    | Spurious(p: nat)

  predicate HoldsOwnLock<D>(x: PState<D>)
  {
    x.Both? || x.Dropped? || x.Marked?
  }

  // On the way to sleep, past the point of rechecking the condition.
  predicate GoesToSleep<D>(x: PState<D>)
  {
    x.Dropped? || x.Marked? || x.Sleeping?
  }

  predicate Enabled<D, C>(sys: System<D, C>, s: State<D>, e: Event<C>)
  {
    && e.p < |s.st| == sys.n
    && match e
       case Acquire(p, c) => s.holder.None? && (s.st[p].Outside? || s.st[p].Woken?)
       case Set(p) => s.st[p].Holding? && s.st[p].acts != [] && s.st[p].acts[0].Assign?
       case ScanOne(p) =>
         && s.st[p].Holding? && s.st[p].acts != [] && s.st[p].acts[0].Wakeup? && s.st[p].scan < sys.n
         && (s.st[p].scan != p ==> !HoldsOwnLock(s.st[s.st[p].scan]))
       case ScanEnd(p) => s.st[p].Holding? && s.st[p].acts != [] && s.st[p].acts[0].Wakeup? && s.st[p].scan == sys.n
       case Release(p) => s.st[p].Holding? && s.st[p].acts == []
       case LockSelf(p) => s.st[p].Locking?
       case Drop(p) => s.st[p].Both?
       case Mark(p) => s.st[p].Dropped?
       case Sched(p) => s.st[p].Marked?
       case Spurious(p) => s.st[p].Sleeping?
  }

  function Put<D>(s: State<D>, p: nat, x: PState<D>): State<D>
    requires p < |s.st|
  {
    s.(st := s.st[p := x])
  }

  function Do<D, C>(sys: System<D, C>, s: State<D>, e: Event<C>): State<D>
    requires Enabled(sys, s, e)
  {
    match e
    case Acquire(p, c) =>
      var s' := s.(holder := Some(p), start := s.data, scanned := {});
      (match sys.plan(s.data, p, c)
       case Finish(acts) => Put(s', p, Holding(acts, 0))
       case Wait => Put(s', p, Locking))
    case Set(p) => Put(s.(data := s.st[p].acts[0].d), p, Holding(s.st[p].acts[1..], 0))
    case ScanOne(p) =>
      // acquire q->lock; wake q if it sleeps on this channel; release q->lock
      var x := s.st[p];
      var q := x.scan;
      var s' := Put(s, p, Holding(x.acts, q + 1));
      if sys.chan(q) != x.acts[0].chan || q == p then s'
      else Put(s'.(scanned := s'.scanned + {q}), q, if s.st[q].Sleeping? then Woken else s.st[q])
    case ScanEnd(p) => Put(s, p, Holding(s.st[p].acts[1..], 0))
    case Release(p) => Put(s.(holder := None), p, Outside)
    case LockSelf(p) => Put(s, p, Both)
    case Drop(p) => Put(s.(holder := None), p, Dropped)
    case Mark(p) => Put(s, p, Marked)
    case Sched(p) => Put(s, p, Sleeping)
    case Spurious(p) => Put(s, p, Woken)
  }

  // ----- the discipline that a client has to follow -----

  // The data after the remaining acts.
  function After<D>(d: D, acts: seq<Act<D>>): D
  {
    if acts == [] then d else After(if acts[0].Assign? then acts[0].d else d, acts[1..])
  }

  predicate Wakes<D>(acts: seq<Act<D>>, c: nat)
  {
    exists i :: 0 <= i < |acts| && IsWakeup(acts[i], c)
  }

  predicate IsWakeup<D>(a: Act<D>, c: nat)
  {
    a.Wakeup? && a.chan == c
  }

  // Process p sleeps only if its condition is false, and wakes the channel of every
  // other process whose condition its section makes true.
  ghost predicate Behaves<D, C>(sys: System<D, C>, d: D, p: nat, c: C)
  {
    match sys.plan(d, p, c)
    case Wait => !sys.ready(d, p)
    case Finish(acts) =>
      forall q :: 0 <= q < sys.n && q != p && sys.ready(After(d, acts), q) && !sys.ready(d, q) ==>
        Wakes(acts, sys.chan(q))
  }

  ghost predicate Disciplined<D(!new), C(!new)>(sys: System<D, C>)
  {
    forall d: D, p: nat, c: C :: p < sys.n ==> Behaves(sys, d, p, c)
  }

  lemma AfterOne<D>(d: D, a: Act<D>)
    ensures After(d, [a]) == if a.Assign? then a.d else d
  {
    assert [a][1..] == [];
  }

  lemma AfterTwo<D>(d: D, a: Act<D>, b: Act<D>)
    ensures After(d, [a, b]) == if b.Assign? then b.d else if a.Assign? then a.d else d
  {
    assert [a, b][1..] == [b];
    AfterOne(if a.Assign? then a.d else d, b);
  }

  // ----- the invariant -----

  // The condition of q will hold when the section ends, but q has not been scanned yet.
  predicate Pending<D, C>(sys: System<D, C>, s: State<D>, p: nat, q: nat)
    requires p < |s.st| && s.st[p].Holding?
  {
    q in s.scanned || q == p || sys.ready(s.start, q) || !sys.ready(After(s.data, s.st[p].acts), q)
      || StillWakes(sys, s.st[p], q)
  }

  // The acts to come include a scan of q on its channel.
  predicate StillWakes<D, C>(sys: System<D, C>, x: PState<D>, q: nat)
    requires x.Holding?
  {
    if x.acts != [] && IsWakeup(x.acts[0], sys.chan(q)) then x.scan <= q || Wakes(x.acts[1..], sys.chan(q))
    else Wakes(x.acts, sys.chan(q))
  }

  ghost predicate Inv<D, C>(sys: System<D, C>, s: State<D>)
  {
    && |s.st| == sys.n
    && (forall p :: 0 <= p < sys.n ==> (s.holder == Some(p) <==> s.st[p].Holding? || s.st[p].Locking? || s.st[p].Both?))
    && (s.holder.Some? ==> s.holder.value < sys.n)
    && (forall q :: 0 <= q < sys.n && q in s.scanned && s.holder.Some? ==> !GoesToSleep(s.st[q]))
    && (s.holder.None? ==> forall q :: 0 <= q < sys.n && GoesToSleep(s.st[q]) ==> !sys.ready(s.data, q))
    && (s.holder.Some? ==> forall q :: 0 <= q < sys.n && GoesToSleep(s.st[q]) ==> !sys.ready(s.start, q))
    && (forall p :: 0 <= p < sys.n && s.st[p].Holding? ==> s.st[p].scan <= sys.n && forall q :: 0 <= q < sys.n ==>
          Pending(sys, s, p, q))
    && (forall p :: 0 <= p < sys.n && (s.st[p].Locking? || s.st[p].Both?) ==>
          s.data == s.start && !sys.ready(s.data, p))
  }

  lemma KeepSet<D(!new), C(!new)>(sys: System<D, C>, s: State<D>, p: nat)
    requires Inv(sys, s) && Enabled(sys, s, Event<C>.Set(p))
    ensures Inv(sys, Do(sys, s, Event<C>.Set(p)))
  {
    var s' := Do(sys, s, Event<C>.Set(p));
    forall q | 0 <= q < sys.n ensures Pending(sys, s', p, q) {
      assert Pending(sys, s, p, q);
      SkipFirst(s.st[p].acts, sys.chan(q));
    }
  }

  lemma KeepScanOne<D(!new), C(!new)>(sys: System<D, C>, s: State<D>, p: nat)
    requires Inv(sys, s) && Enabled(sys, s, Event<C>.ScanOne(p))
    ensures Inv(sys, Do(sys, s, Event<C>.ScanOne(p)))
  {
    var s' := Do(sys, s, Event<C>.ScanOne(p));
    forall q | 0 <= q < sys.n ensures Pending(sys, s', p, q) {
      assert Pending(sys, s, p, q);
    }
  }

  lemma KeepScanEnd<D(!new), C(!new)>(sys: System<D, C>, s: State<D>, p: nat)
    requires Inv(sys, s) && Enabled(sys, s, Event<C>.ScanEnd(p))
    ensures Inv(sys, Do(sys, s, Event<C>.ScanEnd(p)))
  {
    var s' := Do(sys, s, Event<C>.ScanEnd(p));
    forall q | 0 <= q < sys.n ensures Pending(sys, s', p, q) {
      assert Pending(sys, s, p, q);
      if !IsWakeup(s.st[p].acts[0], sys.chan(q)) {
        SkipFirst(s.st[p].acts, sys.chan(q));
      }
    }
  }

  lemma KeepAcquire<D(!new), C(!new)>(sys: System<D, C>, s: State<D>, p: nat, c: C)
    requires Disciplined(sys) && Inv(sys, s) && Enabled(sys, s, Event<C>.Acquire(p, c))
    ensures Inv(sys, Do(sys, s, Event<C>.Acquire(p, c)))
  {
    hide After;
    var s' := Do(sys, s, Event<C>.Acquire(p, c));
    assert Behaves(sys, s.data, p, c);
  }

  lemma KeepRelease<D(!new), C(!new)>(sys: System<D, C>, s: State<D>, p: nat)
    requires Inv(sys, s) && Enabled(sys, s, Event<C>.Release(p))
    ensures Inv(sys, Do(sys, s, Event<C>.Release(p)))
  {
    var s' := Do(sys, s, Event<C>.Release(p));
    forall q | 0 <= q < sys.n && GoesToSleep(s'.st[q]) ensures !sys.ready(s'.data, q) {
      assert Pending(sys, s, p, q);
    }
  }

  lemma StepKeeps<D(!new), C(!new)>(sys: System<D, C>, s: State<D>, e: Event<C>)
    requires Disciplined(sys) && Inv(sys, s) && Enabled(sys, s, e)
    ensures Inv(sys, Do(sys, s, e))
  {
    hide After, StillWakes, Inv;
    match e
    case Acquire(p, c) => KeepAcquire(sys, s, p, c);
    case Set(p) => KeepSet(sys, s, p);
    case ScanOne(p) => KeepScanOne(sys, s, p);
    case ScanEnd(p) => KeepScanEnd(sys, s, p);
    case Release(p) => KeepRelease(sys, s, p);
    case _ => KeepSleeper(sys, s, e);
  }

  lemma KeepSleeper<D(!new), C(!new)>(sys: System<D, C>, s: State<D>, e: Event<C>)
    requires Inv(sys, s) && Enabled(sys, s, e) && (e.LockSelf? || e.Drop? || e.Mark? || e.Sched? || e.Spurious?)
    ensures Inv(sys, Do(sys, s, e))
  {
    hide After, StillWakes;
    var s' := Do(sys, s, e);
    forall p, q | 0 <= p < sys.n && s'.st[p].Holding? && 0 <= q < sys.n ensures Pending(sys, s', p, q) {
      assert p != e.p && s'.st[p] == s.st[p];
      assert Pending(sys, s, p, q);
    }
  }

  lemma SkipFirst<D>(acts: seq<Act<D>>, c: nat)
    requires acts != [] && !IsWakeup(acts[0], c)
    ensures Wakes(acts, c) <==> Wakes(acts[1..], c)
  {
    if Wakes(acts, c) {
      var i :| 0 <= i < |acts| && IsWakeup(acts[i], c);
      assert IsWakeup(acts[1..][i - 1], c);
    }
    if Wakes(acts[1..], c) {
      var i :| 0 <= i < |acts[1..]| && IsWakeup(acts[1..][i], c);
      assert IsWakeup(acts[i + 1], c);
    }
  }

  // ----- every run -----

  ghost predicate IsRun<D(!new), C(!new)>(sys: System<D, C>, run: seq<State<D>>, es: seq<Event<C>>)
  {
    && |run| == |es| + 1
    && run[0].holder.None? && |run[0].st| == sys.n && (forall p :: 0 <= p < sys.n ==> run[0].st[p].Outside?)
    && (forall i :: 0 <= i < |es| ==> Enabled(sys, run[i], es[i]) && run[i + 1] == Do(sys, run[i], es[i]))
  }

  lemma {:induction false} RunInv<D(!new), C(!new)>(sys: System<D, C>, run: seq<State<D>>, es: seq<Event<C>>, k: nat)
    requires Disciplined(sys) && IsRun(sys, run, es) && k < |run|
    ensures Inv(sys, run[k])
  {
    hide Disciplined, Do;
    if k > 0 {
      RunInv(sys, run, es, k - 1);
      StepKeeps(sys, run[k - 1], es[k - 1]);
    }
  }

  // Whenever lk is free, nobody sleeps, or is about to, on a channel whose condition holds.
  lemma NoLostWakeup<D(!new), C(!new)>(sys: System<D, C>, run: seq<State<D>>, es: seq<Event<C>>, k: nat, q: nat)
    requires Disciplined(sys) && IsRun(sys, run, es) && k < |run| && q < |run[k].st|
    requires run[k].holder.None? && (run[k].st[q].Dropped? || run[k].st[q].Marked? || run[k].st[q].Sleeping?)
    ensures !sys.ready(run[k].data, q)
  {
    hide Disciplined, IsRun;
    RunInv(sys, run, es, k);
  }
}
