/** The LAZY file manager of partA.c, for the requests to one file. */
module LazyManager {
  import opened Optional

  // The main thread dispatches the requests in order of time; readers, writers and deleters then
  // share the file under one mutex and one condition variable that is only ever signalled.
  // Steps are the regions between mutex operations.

  const SLOTS: nat := 100      // REQUEST_TIME_ARRAY_SIZE

  datatype Op = Read | Write | Delete

  datatype Request = Request(op: Op, time: nat)

  datatype PC =
    | NotYet                   // not dispatched
    | Start                    // before its first lock of the mutex
    | Recheck                  // delete: saw a count of zero, mutex held, about to read it again
    | Spin                     // delete: waits for same-time reads and writes to start
    | Relock                   // delete: about to lock again
    | Waiting                  // in pthread_cond_wait
    | Woken                    // signalled, about to lock again
    | Access                   // reading or writing, mutex released
    | Deleting                 // deleting, mutex held
    | Done

  datatype State = State(
    next: nat,                 // requests dispatched so far
    pc: seq<PC>,
    readers: int,
    writers: int,
    concurrent: int,
    deleted: bool,
    times: seq<int>)           // time_requests

  // late: more than T seconds have passed; w: the thread that a signal wakes.
  datatype Event =
    | Dispatch
    | Enter(t: nat, late: bool, w: Option<nat>)
    | Proceed(t: nat, late: bool, w: Option<nat>)
    | SpinDone(t: nat)
    | Again(t: nat, late: bool, w: Option<nat>)
    | Finish(t: nat, w: Option<nat>)
    | FinishDelete(t: nat, w: Option<nat>)
    | Spurious(t: nat)

  // What the input is: the limit c on concurrent accesses and the requests, sorted by time, then READ, WRITE, DELETE.
  datatype Input = Input(c: nat, reqs: seq<Request>)

  function Rank(op: Op): nat
  {
    match op
    case Read => 1
    case Write => 2
    case Delete => 3
  }

  ghost predicate Sorted(reqs: seq<Request>)
  {
    forall i, j :: 0 <= i < j < |reqs| ==>
      reqs[i].time < reqs[j].time || (reqs[i].time == reqs[j].time && Rank(reqs[i].op) <= Rank(reqs[j].op))
  }

  predicate ValidState(g: Input, s: State)
  {
    |s.pc| == |g.reqs| && |s.times| == SLOTS && s.next <= |g.reqs|
  }

  function SlotOf(r: Request): nat { r.time % SLOTS }

  // The mutex is held from one step to the next.
  predicate Locks(x: PC)
  {
    x.Deleting? || x.Recheck?
  }

  predicate MutexFree(s: State)
  {
    forall t :: 0 <= t < |s.pc| ==> !Locks(s.pc[t])
  }

  // The mutex is free, or t has it.
  predicate MutexFor(s: State, t: nat)
  {
    forall u :: 0 <= u < |s.pc| && u != t ==> !Locks(s.pc[u])
  }

  // ----- steps -----

  // The condition of the wait loop.
  predicate Blocked(g: Input, s: State, op: Op)
  {
    match op
    case Read => s.concurrent >= g.c
    case Write => s.writers > 0 || s.concurrent >= g.c
    case Delete => s.readers > 0 || s.writers > 0
  }

  // pthread_cond_signal wakes a waiting thread if there is one.
  predicate SignalOk(s: State, w: Option<nat>)
  {
    match w
    case Some(t) => t < |s.pc| && s.pc[t].Waiting?
    case None => forall t :: 0 <= t < |s.pc| ==> !s.pc[t].Waiting?
  }

  function Signal(s: State, w: Option<nat>): State
    requires SignalOk(s, w)
  {
    match w
    case Some(t) => s.(pc := s.pc[t := Woken])
    case None => s
  }

  // From the wait loop to the unlock: wait, give up, or start the access.
  predicate BodyOk(g: Input, s: State, t: nat, late: bool, w: Option<nat>)
  {
    && t < |s.pc| == |g.reqs| && MutexFor(s, t) && !s.pc[t].Waiting?
    && (!Blocked(g, s, g.reqs[t].op) && (late || s.deleted) ==> SignalOk(s, w))
  }

  function Body(g: Input, s: State, t: nat, late: bool, w: Option<nat>): State
    requires BodyOk(g, s, t, late, w)
  {
    var op := g.reqs[t].op;
    if Blocked(g, s, op) then s.(pc := s.pc[t := Waiting])
    else if late || s.deleted then
      var s1 := Signal(s, w);
      s1.(pc := s1.pc[t := Done])
    else if op.Delete? then s.(pc := s.pc[t := Deleting])
    else s.(pc := s.pc[t := Access], concurrent := s.concurrent + 1,
            readers := s.readers + (if op.Read? then 1 else 0), writers := s.writers + (if op.Write? then 1 else 0))
  }

  predicate Enabled(g: Input, s: State, e: Event)
  {
    && ValidState(g, s)
    && match e
       case Dispatch => s.next < |g.reqs|
       case Enter(t, late, w) =>
         && t < |s.pc| && s.pc[t].Start? && MutexFree(s)
         && (g.reqs[t].op.Delete? || BodyOk(g, s, t, late, w))
       case Proceed(t, late, w) =>
         t < |s.pc| && s.pc[t].Recheck? && s.times[SlotOf(g.reqs[t])] <= 0 && BodyOk(g, s, t, late, w)
       case SpinDone(t) => t < |s.pc| && s.pc[t].Spin? && s.times[SlotOf(g.reqs[t])] <= 0
       case Again(t, late, w) => t < |s.pc| && (s.pc[t].Relock? || s.pc[t].Woken?) && BodyOk(g, s, t, late, w)
       case Finish(t, w) => t < |s.pc| && s.pc[t].Access? && MutexFree(s) && SignalOk(s, w)
       case FinishDelete(t, w) => t < |s.pc| && s.pc[t].Deleting? && SignalOk(s, w)
       case Spurious(t) => t < |s.pc| && s.pc[t].Waiting?
  }

  function Do(g: Input, s: State, e: Event): State
    requires Enabled(g, s, e)
  {
    match e
    case Dispatch =>
      var r := g.reqs[s.next];
      var times := if r.op.Delete? then s.times else s.times[SlotOf(r) := s.times[SlotOf(r)] + 1];
      s.(next := s.next + 1, pc := s.pc[s.next := Start], times := times)
    case Enter(t, late, w) =>
      var k := SlotOf(g.reqs[t]);
      if g.reqs[t].op.Delete? then s.(pc := s.pc[t := if s.times[k] > 0 then Spin else Recheck])
      else Body(g, s, t, late, w).(times := s.times[k := s.times[k] - 1])
    case Proceed(t, late, w) => Body(g, s, t, late, w)
    case SpinDone(t) => s.(pc := s.pc[t := Relock])
    case Again(t, late, w) => Body(g, s, t, late, w)
    case Finish(t, w) =>
      var s1 := Signal(s, w);
      s1.(pc := s1.pc[t := Done], concurrent := s.concurrent - 1,
          readers := s.readers - (if g.reqs[t].op.Read? then 1 else 0),
            writers := s.writers - (if g.reqs[t].op.Write? then 1 else 0))
    case FinishDelete(t, w) =>
      var s1 := Signal(s, w);
      s1.(pc := s1.pc[t := Done], deleted := true)
    case Spurious(t) => s.(pc := s.pc[t := Woken])
  }

  // ----- the invariant -----

  function Accessing(g: Input, s: State, op: Op): set<nat>
    requires |s.pc| == |g.reqs|
  {
    set t: nat | t < |s.pc| && s.pc[t].Access? && g.reqs[t].op == op
  }

  // Reads and writes of one time slot that have been dispatched but not started.
  function Unstarted(g: Input, s: State, k: nat): set<nat>
    requires |s.pc| == |g.reqs|
  {
    set t: nat | t < |s.pc| && s.pc[t].Start? && !g.reqs[t].op.Delete? && SlotOf(g.reqs[t]) == k
  }

  ghost predicate Counters(g: Input, s: State)
    requires ValidState(g, s)
  {
    && s.readers == |Accessing(g, s, Read)| && s.writers == |Accessing(g, s, Write)|
    && s.concurrent == s.readers + s.writers <= g.c && s.writers <= 1
  }

  predicate ByDelete(x: PC)
  {
    x.Recheck? || x.Spin? || x.Relock? || x.Deleting?
  }

  ghost predicate Times(g: Input, s: State)
    requires ValidState(g, s)
  {
    && (forall k :: 0 <= k < SLOTS ==> s.times[k] == |Unstarted(g, s, k)|)
    && (forall t :: 0 <= t < |s.pc| ==> (s.pc[t].NotYet? <==> t >= s.next))
    && (forall t :: 0 <= t < |s.pc| && ByDelete(s.pc[t]) ==> g.reqs[t].op.Delete?)
    && (forall t :: 0 <= t < |s.pc| && s.pc[t].Access? ==> !g.reqs[t].op.Delete?)
  }

  // Deletion excludes every access, now and later.
  ghost predicate Deletion(g: Input, s: State)
    requires ValidState(g, s)
  {
    && (s.deleted ==> s.readers == 0 && s.writers == 0)
    && (forall t :: 0 <= t < |s.pc| && s.pc[t].Deleting? ==> s.readers == 0 && s.writers == 0 && !s.deleted)
    && (forall t, u :: 0 <= t < u < |s.pc| && Locks(s.pc[t]) ==> !Locks(s.pc[u]))
  }

  predicate Active(x: PC)
  {
    x.Access? || x.Woken? || x.Deleting?
  }

  // A blocked thread is never alone: somebody is at work, or already woken.
  ghost predicate NotStranded(s: State)
  {
    (exists t :: 0 <= t < |s.pc| && s.pc[t].Waiting?) ==> exists t :: 0 <= t < |s.pc| && Active(s.pc[t])
  }

  ghost predicate Inv(g: Input, s: State)
  {
    ValidState(g, s) && Counters(g, s) && Times(g, s) && Deletion(g, s) && NotStranded(s)
  }

  // ----- counting -----

  lemma AccessMove(g: Input, s: State, s': State, t: nat, op: Op)
    requires |s.pc| == |g.reqs| == |s'.pc| && t < |s.pc|
    requires forall u :: 0 <= u < |s.pc| && u != t ==> (s'.pc[u].Access? <==> s.pc[u].Access?)
    ensures |Accessing(g, s', op)| == |Accessing(g, s, op)| + (if s'.pc[t].Access? && g.reqs[t].op == op then 1
      else 0) - (if s.pc[t].Access? && g.reqs[t].op == op then 1 else 0)
  {
    var a, b := Accessing(g, s, op), Accessing(g, s', op);
    assert a - {t} == b - {t};
    Without(a, t);
    Without(b, t);
  }

  lemma Without(a: set<nat>, t: nat)
    ensures |a| == |a - {t}| + if t in a then 1 else 0
  {
    if t in a {
      assert a == (a - {t}) + {t};
    } else {
      assert a == a - {t};
    }
  }

  lemma StartMove(g: Input, s: State, s': State, t: nat, k: nat)
    requires |s.pc| == |g.reqs| == |s'.pc| && t < |s.pc|
    requires forall u :: 0 <= u < |s.pc| && u != t ==> (s'.pc[u].Start? <==> s.pc[u].Start?)
    ensures var mine := !g.reqs[t].op.Delete? && SlotOf(g.reqs[t]) == k;
      |Unstarted(g, s', k)| == |Unstarted(g, s, k)|
        + (if s'.pc[t].Start? && mine then 1 else 0) - (if s.pc[t].Start? && mine then 1 else 0)
  {
    var a, b := Unstarted(g, s, k), Unstarted(g, s', k);
    assert a - {t} == b - {t};
    Without(a, t);
    Without(b, t);
  }

  // ----- the body keeps the invariant -----

  // Threads other than t move only from Waiting to Woken.
  ghost predicate Others(s: State, s': State, t: nat)
  {
    && |s'.pc| == |s.pc| && s'.next == s.next
    && (forall u :: 0 <= u < |s.pc| && u != t ==> s'.pc[u] == s.pc[u] || (s.pc[u].Waiting? && s'.pc[u].Woken?))
  }

  lemma BodyOthers(g: Input, s: State, t: nat, late: bool, w: Option<nat>)
    requires BodyOk(g, s, t, late, w)
    ensures Others(s, Body(g, s, t, late, w), t)
  {
  }

  // A thread that runs the body held no access and no deletion.
  predicate Entering(x: PC)
  {
    x.Start? || x.Recheck? || x.Relock? || x.Woken?
  }

  lemma BodyCounters(g: Input, s: State, t: nat, late: bool, w: Option<nat>)
    requires ValidState(g, s) && Counters(g, s) && BodyOk(g, s, t, late, w) && Entering(s.pc[t])
    ensures Counters(g, Body(g, s, t, late, w))
  {
    hide Accessing;
    var s' := Body(g, s, t, late, w);
    BodyOthers(g, s, t, late, w);
    AccessMove(g, s, s', t, Read);
    AccessMove(g, s, s', t, Write);
  }

  lemma BodyDeletion(g: Input, s: State, t: nat, late: bool, w: Option<nat>)
    requires ValidState(g, s) && Counters(g, s) && Deletion(g, s) && BodyOk(g, s, t, late, w) && Entering(s.pc[t])
    ensures Deletion(g, Body(g, s, t, late, w))
  {
    hide Accessing;
  }

  // If t blocks again, what blocks it is an access in progress; if it leaves, it signals.
  lemma BodyNotStranded(g: Input, s: State, t: nat, late: bool, w: Option<nat>)
    requires g.c >= 1 && ValidState(g, s) && Counters(g, s) && NotStranded(s) && BodyOk(g, s, t, late, w)
    requires Entering(s.pc[t])
    ensures NotStranded(Body(g, s, t, late, w))
  {
    hide Counters;
    var s', op := Body(g, s, t, late, w), g.reqs[t].op;
    if Blocked(g, s, op) {
      BlockedIsBusy(g, s, op);
      var u :| 0 <= u < |s.pc| && s.pc[u].Access?;
      assert u != t && Active(s'.pc[u]);
    } else if late || s.deleted {
      match w
      case Some(u) => assert Active(s'.pc[u]);
      case None =>
    } else {
      assert Active(s'.pc[t]);
    }
  }

  lemma BlockedIsBusy(g: Input, s: State, op: Op)
    requires g.c >= 1 && ValidState(g, s) && Counters(g, s) && Blocked(g, s, op)
    ensures exists u :: 0 <= u < |s.pc| && s.pc[u].Access?
  {
    var o := if s.readers > 0 then Read else Write;
    var u :| u in Accessing(g, s, o);
  }

  // time_requests after t has left its start.
  lemma StepTimes(g: Input, s: State, s': State, t: nat)
    requires ValidState(g, s) && ValidState(g, s') && Times(g, s) && t < |s.pc| && Others(s, s', t)
    requires !s.pc[t].NotYet? && !s'.pc[t].NotYet? && !s'.pc[t].Start?
    requires ByDelete(s'.pc[t]) ==> g.reqs[t].op.Delete?
    requires (s'.pc[t].Access? ==> !g.reqs[t].op.Delete?)
    requires var k := SlotOf(g.reqs[t]);
      s'.times == if s.pc[t].Start? && !g.reqs[t].op.Delete? then s.times[k := s.times[k] - 1] else s.times
    ensures Times(g, s')
  {
    hide Unstarted;
    forall k | 0 <= k < SLOTS ensures s'.times[k] == |Unstarted(g, s', k)| {
      StartMove(g, s, s', t, k);
    }
  }

  lemma KeepBody(g: Input, s: State, t: nat, late: bool, w: Option<nat>, s': State)
    requires g.c >= 1 && Inv(g, s) && BodyOk(g, s, t, late, w) && Entering(s.pc[t])
    requires var k := SlotOf(g.reqs[t]);
      s' == Body(g, s, t, late, w).(times := if s.pc[t].Start? && !g.reqs[t].op.Delete?
        then s.times[k := s.times[k] - 1] else s.times)
    ensures Inv(g, s')
  {
    BodyOthers(g, s, t, late, w);
    BodyCounters(g, s, t, late, w);
    BodyDeletion(g, s, t, late, w);
    BodyNotStranded(g, s, t, late, w);
    StepTimes(g, s, s', t);
    SameButTimes(g, Body(g, s, t, late, w), s');
  }

  lemma SameButTimes(g: Input, s: State, s': State)
    requires ValidState(g, s) && ValidState(g, s') && s' == s.(times := s'.times) && Counters(g, s) && Deletion(g, s)
    requires NotStranded(s)
    ensures Counters(g, s') && Deletion(g, s') && NotStranded(s')
  {
    assert Accessing(g, s', Read) == Accessing(g, s, Read) && Accessing(g, s', Write) == Accessing(g, s, Write);
  }

  lemma KeepDispatch(g: Input, s: State)
    requires Inv(g, s) && Enabled(g, s, Dispatch)
    ensures Inv(g, Do(g, s, Dispatch))
  {
    hide Unstarted, Accessing;
    var s', t := Do(g, s, Dispatch), s.next;
    AccessMove(g, s, s', t, Read);
    AccessMove(g, s, s', t, Write);
    forall k | 0 <= k < SLOTS ensures s'.times[k] == |Unstarted(g, s', k)| {
      StartMove(g, s, s', t, k);
    }
    forall u | 0 <= u < |s.pc| && Active(s.pc[u]) ensures Active(s'.pc[u]) {
    }
  }

  // Leaving: Finish and FinishDelete signal, so a waiting thread is woken.
  lemma KeepFinish(g: Input, s: State, t: nat, w: Option<nat>)
    requires Inv(g, s) && Enabled(g, s, Finish(t, w))
    ensures Inv(g, Do(g, s, Finish(t, w)))
  {
    hide Unstarted, Accessing;
    var s' := Do(g, s, Finish(t, w));
    AccessMove(g, s, s', t, Read);
    AccessMove(g, s, s', t, Write);
    AccessNat(g, s);
    StepTimes(g, s, s', t);
    if w.Some? {
      assert Active(s'.pc[w.value]);
    }
  }

  lemma AccessNat(g: Input, s: State)
    requires ValidState(g, s)
    ensures forall t :: 0 <= t < |s.pc| && s.pc[t].Access? ==> |Accessing(g, s, g.reqs[t].op)| > 0
  {
    forall t | 0 <= t < |s.pc| && s.pc[t].Access? ensures |Accessing(g, s, g.reqs[t].op)| > 0 {
      assert t in Accessing(g, s, g.reqs[t].op);
    }
  }

  lemma KeepFinishDelete(g: Input, s: State, t: nat, w: Option<nat>)
    requires Inv(g, s) && Enabled(g, s, FinishDelete(t, w))
    ensures Inv(g, Do(g, s, FinishDelete(t, w)))
  {
    hide Unstarted, Accessing;
    var s' := Do(g, s, FinishDelete(t, w));
    AccessMove(g, s, s', t, Read);
    AccessMove(g, s, s', t, Write);
    StepTimes(g, s, s', t);
    if w.Some? {
      assert Active(s'.pc[w.value]);
    }
  }

  lemma KeepMove(g: Input, s: State, t: nat, x: PC)
    requires Inv(g, s) && t < |s.pc| && (x.Woken? || x.Spin? || x.Relock? || (x.Recheck? && MutexFree(s)))
    requires s.pc[t].Waiting? || s.pc[t].Spin? || (s.pc[t].Start? && g.reqs[t].op.Delete?)
    requires s.pc[t].Waiting? <==> x.Woken?
    ensures Inv(g, s.(pc := s.pc[t := x]))
  {
    hide Unstarted, Accessing;
    var s' := s.(pc := s.pc[t := x]);
    AccessMove(g, s, s', t, Read);
    AccessMove(g, s, s', t, Write);
    StepTimes(g, s, s', t);
    forall u | 0 <= u < |s.pc| && Active(s.pc[u]) ensures Active(s'.pc[u]) {
    }
    assert x.Woken? ==> Active(s'.pc[t]);
  }

  lemma StepKeeps(g: Input, s: State, e: Event)
    requires g.c >= 1 && Inv(g, s) && Enabled(g, s, e)
    ensures Inv(g, Do(g, s, e))
  {
    hide Inv;
    match e
    case Dispatch => KeepDispatch(g, s);
    case Enter(t, late, w) =>
      if g.reqs[t].op.Delete? {
        KeepMove(g, s, t, if s.times[SlotOf(g.reqs[t])] > 0 then Spin else Recheck);
      } else {
        KeepBody(g, s, t, late, w, Do(g, s, e));
      }
    case Proceed(t, late, w) => KeepBody(g, s, t, late, w, Do(g, s, e));
    case SpinDone(t) => KeepMove(g, s, t, Relock);
    case Again(t, late, w) => KeepBody(g, s, t, late, w, Do(g, s, e));
    case Finish(t, w) => KeepFinish(g, s, t, w);
    case FinishDelete(t, w) => KeepFinishDelete(g, s, t, w);
    case Spurious(t) => KeepMove(g, s, t, Woken);
  }

  // ----- every run -----

  // main: nothing dispatched, counters and time_requests zero.
  ghost predicate Boot(g: Input, s: State)
  {
    && ValidState(g, s) && s.next == 0 && s.readers == 0 && s.writers == 0 && s.concurrent == 0 && !s.deleted
    && (forall t :: 0 <= t < |s.pc| ==> s.pc[t].NotYet?) && (forall k :: 0 <= k < SLOTS ==> s.times[k] == 0)
  }

  ghost predicate IsRun(g: Input, run: seq<State>, es: seq<Event>)
  {
    && |run| == |es| + 1 && Boot(g, run[0])
    && (forall i :: 0 <= i < |es| ==> Enabled(g, run[i], es[i]) && run[i + 1] == Do(g, run[i], es[i]))
  }

  lemma {:induction false} RunInv(g: Input, run: seq<State>, es: seq<Event>, k: nat)
    requires g.c >= 1 && IsRun(g, run, es) && k < |run|
    ensures Inv(g, run[k])
  {
    if k == 0 {
      assert Accessing(g, run[0], Read) == {} && Accessing(g, run[0], Write) == {};
      forall j: nat ensures Unstarted(g, run[0], j) == {} {
      }
    } else {
      RunInv(g, run, es, k - 1);
      StepKeeps(g, run[k - 1], es[k - 1]);
    }
  }

  // At most c accesses, at most one of them a write, none once the file is deleted;
  // and a blocked thread is never left behind, although nothing ever broadcasts.
  lemma LazyIsSafe(g: Input, run: seq<State>, es: seq<Event>, k: nat)
    requires g.c >= 1 && IsRun(g, run, es) && k < |run|
    ensures ValidState(g, run[k])
    ensures run[k].concurrent == |Accessing(g, run[k], Read)| + |Accessing(g, run[k], Write)| <= g.c
    ensures |Accessing(g, run[k], Write)| <= 1
    ensures run[k].deleted ==> Accessing(g, run[k], Read) == {} && Accessing(g, run[k], Write) == {}
    ensures (exists t :: 0 <= t < |run[k].pc| && run[k].pc[t].Waiting?) ==>
      exists t :: 0 <= t < |run[k].pc| && Active(run[k].pc[t])
  {
    hide IsRun;
    RunInv(g, run, es, k);
  }

  predicate Started(x: PC)
  {
    !x.NotYet? && !x.Start?
  }

  // The delete t finds no request of its time slot unstarted: twice in a row, or after spinning.
  predicate PassesTest(g: Input, s: State, e: Event, t: nat)
    requires ValidState(g, s)
  {
    && t < |g.reqs| && g.reqs[t].op.Delete?
    && (e == SpinDone(t) || (e.Proceed? && e.t == t))
  }

  // By then every read and write requested at the same time has started.
  lemma SameTimeFirst(g: Input, run: seq<State>, es: seq<Event>, k: nat, t: nat, u: nat)
    requires g.c >= 1 && Sorted(g.reqs) && IsRun(g, run, es) && k < |es| && PassesTest(g, run[k], es[k], t)
    requires u < |g.reqs| && !g.reqs[u].op.Delete? && g.reqs[u].time == g.reqs[t].time
    ensures u < |run[k].pc| && Started(run[k].pc[u])
  {
    var s := run[k];
    RunInv(g, run, es, k);
    assert Enabled(g, s, es[k]);
    assert u < t;
    assert !s.pc[t].NotYet?;
    var j := SlotOf(g.reqs[t]);
    assert |Unstarted(g, s, j)| == 0;
    assert u !in Unstarted(g, s, j);
  }

  // Past the test: waiting for accesses to end, deleting, or done.
  predicate Past(x: PC)
  {
    Started(x) && !x.Spin? && !x.Recheck?
  }

  lemma StartedStays(g: Input, s: State, e: Event, t: nat, u: nat)
    requires ValidState(g, s) && Enabled(g, s, e) && u < |g.reqs| && t < |g.reqs|
    ensures |Do(g, s, e).pc| == |s.pc|
    ensures Started(s.pc[u]) && !(e.Dispatch? && s.next == u) ==> Started(Do(g, s, e).pc[u])
    ensures g.reqs[t].op.Delete? && Past(Do(g, s, e).pc[t]) ==> Past(s.pc[t]) || PassesTest(g, s, e, t)
  {
    hide Body, BodyOk;
    match e
    case Enter(v, late, w) => if !g.reqs[v].op.Delete? { BodyMoves(g, s, v, late, w); }
    case Proceed(v, late, w) => BodyMoves(g, s, v, late, w);
    case Again(v, late, w) => BodyMoves(g, s, v, late, w);
    case _ =>
  }

  // The body moves its own thread on and wakes at most one other.
  lemma BodyMoves(g: Input, s: State, v: nat, late: bool, w: Option<nat>)
    requires BodyOk(g, s, v, late, w)
    ensures var s' := Body(g, s, v, late, w);
      && |s'.pc| == |s.pc| && s'.times == s.times && s'.next == s.next && v < |s.pc| && Past(s'.pc[v])
      && (forall u :: 0 <= u < |s.pc| && u != v ==> s'.pc[u] == s.pc[u] || (s.pc[u].Waiting? && s'.pc[u].Woken?))
  {
  }

  // In every state of every run a delete that has passed its test comes after every read and
  // write requested in the same second.
  lemma {:induction false} DeleteComesLast(g: Input, run: seq<State>, es: seq<Event>, k: nat, t: nat, u: nat)
    requires g.c >= 1 && Sorted(g.reqs) && IsRun(g, run, es) && k < |run| && t < |g.reqs| == |run[k].pc|
    requires g.reqs[t].op.Delete? && Past(run[k].pc[t])
    requires u < |g.reqs| && !g.reqs[u].op.Delete? && g.reqs[u].time == g.reqs[t].time
    ensures Started(run[k].pc[u])
  {
    hide Enabled, Do, Inv;
    if k > 0 {
      var s, e := run[k - 1], es[k - 1];
      assert Enabled(g, s, e) && run[k] == Do(g, s, e);
      RunInv(g, run, es, k - 1);
      InvParts(g, s);
      StartedStays(g, s, e, t, u);
      if Past(s.pc[t]) {
        DeleteComesLast(g, run, es, k - 1, t, u);
      } else {
        SameTimeFirst(g, run, es, k - 1, t, u);
      }
    }
  }

  lemma InvParts(g: Input, s: State)
    requires Inv(g, s)
    ensures ValidState(g, s) && (forall t :: 0 <= t < |s.pc| ==> (s.pc[t].NotYet? <==> t >= s.next))
    ensures forall t :: 0 <= t < |s.pc| && ByDelete(s.pc[t]) ==> g.reqs[t].op.Delete?
  {
  }

  // ----- the two reads of the counter -----

  // The delete t has the mutex and spins: the requests it waits for cannot start.
  predicate SpinsLocked(g: Input, s: State, t: nat)
    requires ValidState(g, s)
  {
    t < |s.pc| && s.pc[t].Recheck? && s.times[SlotOf(g.reqs[t])] > 0
  }

  // It never gets any further.
  lemma SpinsForever(g: Input, s: State, e: Event, t: nat)
    requires Inv(g, s) && Enabled(g, s, e) && SpinsLocked(g, s, t)
    ensures ValidState(g, Do(g, s, e)) && SpinsLocked(g, Do(g, s, e), t)
  {
    hide Counters, NotStranded;
    assert Locks(s.pc[t]);
  }

  // A read or write that comes after the delete t falls into its slot of time_requests.
  predicate Clash(g: Input, t: nat, u: nat)
  {
    && t < u < |g.reqs| && g.reqs[t].op.Delete? && !g.reqs[u].op.Delete?
    && SlotOf(g.reqs[t]) == SlotOf(g.reqs[u])
  }

  // Requests in order: the two are at least SLOTS seconds apart.
  lemma ClashIsFar(g: Input, t: nat, u: nat)
    requires Sorted(g.reqs) && Clash(g, t, u)
    ensures g.reqs[t].time + SLOTS <= g.reqs[u].time
  {
  }

  // Without such a pair the second read finds what the first one found, in every run.
  lemma {:induction false} NoClashNoSpin(g: Input, run: seq<State>, es: seq<Event>, k: nat, t: nat)
    requires g.c >= 1 && IsRun(g, run, es) && k < |run| && t < |g.reqs| && forall u :: !Clash(g, t, u)
    ensures ValidState(g, run[k]) && !SpinsLocked(g, run[k], t)
  {
    hide Do, Enabled, Inv, Clash;
    RunInv(g, run, es, k);
    InvParts(g, run[k]);
    if k > 0 {
      var s, e := run[k - 1], es[k - 1];
      assert Enabled(g, s, e) && run[k] == Do(g, s, e);
      RunInv(g, run, es, k - 1);
      InvParts(g, s);
      NoClashNoSpin(g, run, es, k - 1, t);
      CountStays(g, s, e, t);
    }
  }

  lemma CountStays(g: Input, s: State, e: Event, t: nat)
    requires ValidState(g, s) && (forall u :: 0 <= u < |s.pc| ==> (s.pc[u].NotYet? <==> u >= s.next))
    requires forall u :: 0 <= u < |s.pc| && ByDelete(s.pc[u]) ==> g.reqs[u].op.Delete?
    requires Enabled(g, s, e) && t < |g.reqs| && !SpinsLocked(g, s, t) && forall u :: !Clash(g, t, u)
    ensures ValidState(g, Do(g, s, e)) && !SpinsLocked(g, Do(g, s, e), t)
  {
    hide Body, BodyOk;
    match e
    case Dispatch => assert !Clash(g, t, s.next);
    case Enter(u, late, w) => if !g.reqs[u].op.Delete? { BodyMoves(g, s, u, late, w); }
    case Proceed(u, late, w) => BodyMoves(g, s, u, late, w);
    case Again(u, late, w) => BodyMoves(g, s, u, late, w);
    case _ =>
  }

  ghost predicate Reachable(g: Input, s: State)
  {
    exists run, es :: IsRun(g, run, es) && run[|run| - 1] == s
  }

  lemma ReachStep(g: Input, s: State, e: Event)
    requires Reachable(g, s) && Enabled(g, s, e)
    ensures Reachable(g, Do(g, s, e))
  {
    hide Boot, Do, Enabled;
    var run, es :| IsRun(g, run, es) && run[|run| - 1] == s;
    var more, steps := run + [Do(g, s, e)], es + [e];
    forall i | 0 <= i < |steps| ensures Enabled(g, more[i], steps[i]) && more[i + 1] == Do(g, more[i], steps[i]) {
      if i < |es| {
        assert more[i] == run[i] && more[i + 1] == run[i + 1] && steps[i] == es[i];
      }
    }
    assert IsRun(g, more, steps) && more[|more| - 1] == Do(g, s, e);
  }

  // The first n requests have been dispatched; the reads and writes among them came too late.
  ghost predicate Cleared(g: Input, s: State, n: nat)
  {
    && ValidState(g, s) && s.next == n && s.readers == 0 && s.writers == 0 && s.concurrent == 0 && !s.deleted
    && (forall t :: 0 <= t < |s.pc| ==>
          s.pc[t] == if t >= n then NotYet else if g.reqs[t].op.Delete? then Start else Done)
    && (forall k :: 0 <= k < SLOTS ==> s.times[k] == 0)
  }

  lemma {:induction false} ReachCleared(g: Input, n: nat) returns (s: State)
    requires g.c >= 1 && n <= |g.reqs|
    ensures Reachable(g, s) && Cleared(g, s, n)
  {
    hide Reachable;
    if n == 0 {
      s := State(0, seq(|g.reqs|, _ => NotYet), 0, 0, 0, false, seq(SLOTS, _ => 0));
      assert Reachable(g, s) by {
        ReachStart(g, s);
      }
    } else {
      var s0 := ReachCleared(g, n - 1);
      ReachStep(g, s0, Dispatch);
      s := Do(g, s0, Dispatch);
      if !g.reqs[n - 1].op.Delete? {
        ReachStep(g, s, Enter(n - 1, true, None));
        s := Do(g, s, Enter(n - 1, true, None));
      }
    }
  }

  lemma ReachStart(g: Input, s: State)
    requires Boot(g, s)
    ensures Reachable(g, s)
  {
    hide Boot;
    assert IsRun(g, [s], []) && [s][0] == s;
  }

  // The main thread goes on dispatching while the delete t is between its two reads.
  lemma {:induction false} ReachLater(g: Input, t: nat, n: nat) returns (s: State)
    requires g.c >= 1 && t < n <= |g.reqs| && g.reqs[t].op.Delete?
    ensures Reachable(g, s) && ValidState(g, s) && s.next == n && s.pc[t].Recheck?
    ensures forall u :: t < u < n ==> s.pc[u].Start?
    decreases n
  {
    hide Reachable;
    if n == t + 1 {
      var s0 := ReachCleared(g, t);
      ReachStep(g, s0, Dispatch);
      var s1 := Do(g, s0, Dispatch);
      ReachStep(g, s1, Enter(t, false, None));
      s := Do(g, s1, Enter(t, false, None));
    } else {
      var s0 := ReachLater(g, t, n - 1);
      ReachStep(g, s0, Dispatch);
      s := Do(g, s0, Dispatch);
    }
  }

  // With such a pair some run leaves the delete spinning with the mutex held.
  lemma ClashCanSpin(g: Input, t: nat, u: nat) returns (s: State)
    requires g.c >= 1 && Clash(g, t, u)
    ensures Reachable(g, s) && ValidState(g, s) && SpinsLocked(g, s, t)
  {
    s := ReachLater(g, t, u + 1);
    var run, es :| IsRun(g, run, es) && run[|run| - 1] == s;
    hide IsRun;
    RunInv(g, run, es, |run| - 1);
    var k := SlotOf(g.reqs[t]);
    assert u in Unstarted(g, s, k);
    assert |Unstarted(g, s, k)| > 0;
  }
}
