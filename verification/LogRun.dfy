/** Whole runs of the logging system, with crashes. */
module LogRun {
  import opened Log

  // Operations begin, log writes and end under log.lock in any interleaving, the last one commits,
  // and the machine may crash at any block write of a commit or of a recovery, any number of times.

  datatype Update = Update(op: nat, b: int, data: Block)

  // An operation between begin_op and end_op, and the blocks it has logged.
  datatype Active = Active(id: nat, written: set<int>)

  datatype Phase = Running | Committing(from: Disk, k: nat) | Recovering(from: Disk, k: nat)

  datatype State = State(
    disk: Disk,
    cache: map<int, Block>,
    lh: seq<int>,
    ops: seq<Active>,          // log.outstanding is its length
    phase: Phase,
    panicked: bool,
    next: nat,                 // the next operation's name
    group: seq<Update>,        // updates of the transaction being built
    history: seq<Update>,      // updates of the committed transactions
    all: seq<Update>)          // every update ever made

  datatype Event =
    | Begin
    | Write(i: nat, b: int, data: Block)
    | End(i: nat)
    | CommitStep
    | CommitDone
    | Crash
    | RecoverStep
    | RecoverDone

  // ----- steps -----

  predicate CanBegin(s: State)
  {
    s.phase.Running? && |s.lh| + (|s.ops| + 1) * MAXOPBLOCKS <= LOGSIZE
  }

  function DoBegin(s: State): State
  {
    s.(ops := s.ops + [Active(s.next, {})], next := s.next + 1)
  }

  // An operation logs at most MAXOPBLOCKS different blocks.
  predicate CanWrite(g: Layout, s: State, i: nat, b: int, data: Block)
  {
    i < |s.ops| && Home(g, b) && |data| == WORDS && |s.ops[i].written + {b}| <= MAXOPBLOCKS
  }

  predicate GuardFires(g: Layout, s: State)
  {
    |s.lh| >= LOGSIZE || |s.lh| >= g.size - 1
  }

  function DoWrite(g: Layout, s: State, i: nat, b: int, data: Block): State
    requires i < |s.ops|
  {
    if GuardFires(g, s) then s.(panicked := true)
    else
      var op := s.ops[i];
      var u := Update(op.id, b, data);
      s.(cache := s.cache[b := data], lh := if b in s.lh then s.lh else s.lh + [b],
         ops := s.ops[i := op.(written := op.written + {b})],
         group := s.group + [u], all := s.all + [u])
  }

  function DoEnd(s: State, i: nat): State
    requires i < |s.ops|
  {
    var s' := s.(ops := s.ops[..i] + s.ops[i + 1..]);
    if !s.phase.Running? then s.(panicked := true)
    else if s'.ops == [] then s'.(phase := Committing(s.disk, 0))
    else s'
  }

  ghost predicate CanCommitStep(g: Layout, s: State)
  {
    s.phase.Committing? && Ready(g, s.phase.from, s.lh, s.cache)
      && s.phase.k < |CommitTrace(g, s.phase.from, s.lh, s.cache)|
  }

  // Write number |lh| is the header write.
  ghost function DoCommitStep(g: Layout, s: State): State
    requires CanCommitStep(g, s)
  {
    var k := s.phase.k;
    var s' := s.(disk := CommitTrace(g, s.phase.from, s.lh, s.cache)[k], phase := Committing(s.phase.from, k + 1));
    if k == |s.lh| then s'.(history := s.history + s.group, group := []) else s'
  }

  ghost predicate CanCommitDone(g: Layout, s: State)
  {
    s.phase.Committing? && Ready(g, s.phase.from, s.lh, s.cache)
      && s.phase.k == |CommitTrace(g, s.phase.from, s.lh, s.cache)|
  }

  function DoCommitDone(s: State): State
  {
    s.(lh := [], cache := map[], phase := Running)
  }

  // Memory is lost; the next boot recovers from whatever is on the disk.
  function DoCrash(s: State): State
  {
    s.(cache := map[], lh := [], ops := [], group := [], panicked := false, phase := Recovering(s.disk, 0))
  }

  ghost predicate CanRecoverStep(g: Layout, s: State)
  {
    s.phase.Recovering? && HeaderOk(g, s.phase.from) && s.phase.k < |RecoveryTrace(g, s.phase.from)|
  }

  ghost function DoRecoverStep(g: Layout, s: State): State
    requires CanRecoverStep(g, s)
  {
    s.(disk := RecoveryTrace(g, s.phase.from)[s.phase.k], phase := Recovering(s.phase.from, s.phase.k + 1))
  }

  ghost predicate CanRecoverDone(g: Layout, s: State)
  {
    s.phase.Recovering? && HeaderOk(g, s.phase.from) && s.phase.k == |RecoveryTrace(g, s.phase.from)|
  }

  ghost predicate Enabled(g: Layout, s: State, e: Event)
  {
    match e
    case Begin => !s.panicked && CanBegin(s)
    case Write(i, b, data) => !s.panicked && CanWrite(g, s, i, b, data)
    case End(i) => !s.panicked && i < |s.ops|
    case CommitStep => !s.panicked && CanCommitStep(g, s)
    case CommitDone => !s.panicked && CanCommitDone(g, s)
    case Crash => true
    case RecoverStep => CanRecoverStep(g, s)
    case RecoverDone => CanRecoverDone(g, s)
  }

  ghost function Do(g: Layout, s: State, e: Event): State
    requires Enabled(g, s, e)
  {
    match e
    case Begin => DoBegin(s)
    case Write(i, b, data) => DoWrite(g, s, i, b, data)
    case End(i) => DoEnd(s, i)
    case CommitStep => DoCommitStep(g, s)
    case CommitDone => DoCommitDone(s)
    case Crash => DoCrash(s)
    case RecoverStep => DoRecoverStep(g, s)
    case RecoverDone => s.(phase := Running)
  }

  // ----- what the home blocks should hold -----

  function Replay(home: map<int, Block>, us: seq<Update>): map<int, Block>
  {
    if us == [] then home else Replay(home, us[..|us| - 1])[us[|us| - 1].b := us[|us| - 1].data]
  }

  // The updates that operation o made.
  function Of(us: seq<Update>, o: nat): seq<Update>
  {
    if us == [] then []
    else Of(us[..|us| - 1], o) + if us[|us| - 1].op == o then [us[|us| - 1]] else []
  }

  // part holds, for each operation, all of its updates or none.
  ghost predicate Whole(part: seq<Update>, all: seq<Update>)
  {
    forall o :: Of(part, o) == [] || Of(part, o) == Of(all, o)
  }

  // MAXOPBLOCKS minus what has been used, over the active operations.
  function Unused(ops: seq<Active>): int
  {
    if ops == [] then 0 else Unused(ops[..|ops| - 1]) + MAXOPBLOCKS - |ops[|ops| - 1].written|
  }

  // ----- the invariant -----

  ghost predicate Stored(g: Layout, home: map<int, Block>, s: State)
  {
    match s.phase
    case Running =>
      && Ready(g, s.disk, s.lh, s.cache)
      && Homes(g, s.disk) == Replay(home, s.history)
      && Updated(g, s.disk, s.lh, s.cache) == Replay(home, s.history + s.group)
      && (s.lh == [] ==> s.group == [])
    case Committing(from, k) =>
      && Ready(g, from, s.lh, s.cache) && s.ops == []
      && k <= |CommitTrace(g, from, s.lh, s.cache)|
      && s.disk == (if k == 0 then from else CommitTrace(g, from, s.lh, s.cache)[k - 1])
      && (s.lh == [] ==> s.group == [])
      && (if k <= |s.lh| then
            Homes(g, from) == Replay(home, s.history)
              && Updated(g, from, s.lh, s.cache) == Replay(home, s.history + s.group)
          else s.group == [] && Updated(g, from, s.lh, s.cache) == Replay(home, s.history))
    case Recovering(from, k) =>
      && HeaderOk(g, from) && Recovered(g, from) == Replay(home, s.history)
      && k <= |RecoveryTrace(g, from)|
      && s.disk == (if k == 0 then from else RecoveryTrace(g, from)[k - 1])
      && s.ops == [] && s.lh == [] && s.group == [] && s.cache == map[]
  }

  // An operation is all in the current group, all in the history, or all lost.
  ghost predicate Grouped(s: State)
  {
    && (forall i :: 0 <= i < |s.all| ==> s.all[i].op < s.next)
    && (forall i :: 0 <= i < |s.ops| ==>
          && s.ops[i].id < s.next && Of(s.history, s.ops[i].id) == []
          && Of(s.group, s.ops[i].id) == Of(s.all, s.ops[i].id))
    && (forall i, j :: 0 <= i < j < |s.ops| ==> s.ops[i].id != s.ops[j].id)
    && Whole(s.history, s.all) && Whole(s.group, s.all)
    && (forall o :: Of(s.history, o) == [] || Of(s.group, o) == [])
  }

  ghost predicate Reserved(s: State)
  {
    && |s.lh| + Unused(s.ops) <= LOGSIZE
    && (forall i :: 0 <= i < |s.ops| ==> |s.ops[i].written| <= MAXOPBLOCKS && forall b :: b in s.ops[i].written ==>
          b in s.lh)
  }

  ghost predicate Inv(g: Layout, home: map<int, Block>, s: State)
  {
    Stored(g, home, s) && Grouped(s) && Reserved(s)
  }

  // ----- each part is kept -----

  lemma {:induction false} OfConcat(a: seq<Update>, b: seq<Update>, o: nat)
    ensures Of(a + b, o) == Of(a, o) + Of(b, o)
  {
    if b == [] {
      assert a + b == a;
    } else {
      assert (a + b)[..|a + b| - 1] == a + b[..|b| - 1];
      OfConcat(a, b[..|b| - 1], o);
    }
  }

  lemma {:induction false} OfFresh(us: seq<Update>, o: nat)
    requires forall i :: 0 <= i < |us| ==> us[i].op != o
    ensures Of(us, o) == []
  {
    if us != [] {
      OfFresh(us[..|us| - 1], o);
    }
  }

  lemma OfSnoc(us: seq<Update>, u: Update, o: nat)
    ensures Of(us + [u], o) == Of(us, o) + if u.op == o then [u] else []
  {
    assert (us + [u])[..|us|] == us;
  }

  lemma GroupedBegin(s: State)
    requires Grouped(s)
    ensures Grouped(DoBegin(s))
  {
    OfFresh(s.all, s.next);
  }

  lemma GroupedWrite(s: State, s': State, i: nat, u: Update)
    requires Grouped(s) && i < |s.ops| && u.op == s.ops[i].id
    requires s'.group == s.group + [u] && s'.all == s.all + [u] && s'.history == s.history && s'.next == s.next
    requires |s'.ops| == |s.ops| && forall j :: 0 <= j < |s.ops| ==> s'.ops[j].id == s.ops[j].id
    ensures Grouped(s')
  {
    forall o: nat
      ensures Of(s'.group, o) == Of(s.group, o) + (if u.op == o then [u] else [])
      ensures Of(s'.all, o) == Of(s.all, o) + (if u.op == o then [u] else [])
    {
      OfSnoc(s.group, u, o);
      OfSnoc(s.all, u, o);
    }
  }

  // Ending an operation, ending the commit: operations leave, nothing else moves.
  lemma GroupedLess(s: State, s': State, i: nat, j: nat)
    requires Grouped(s) && s'.all == s.all && s'.next == s.next && s'.history == s.history
    requires s'.group == s.group || (s'.group == [] && s'.ops == [])
    requires i <= j <= |s.ops| && s'.ops == s.ops[..i] + s.ops[j..]
    ensures Grouped(s')
  {
    hide Of;
    forall o: nat ensures Of([], o) == [] {
      OfFresh([], o);
    }
    forall k | 0 <= k < |s'.ops| ensures s'.ops[k] == s.ops[if k < i then k else k - i + j] {
    }
  }

  lemma GroupedCommit(s: State, s': State)
    requires Grouped(s) && s'.all == s.all && s'.next == s.next && s'.ops == [] && s'.group == []
    requires s'.history == s.history + s.group
    ensures Grouped(s')
  {
    forall o: nat ensures Of(s'.history, o) == Of(s.history, o) + Of(s.group, o) {
      OfConcat(s.history, s.group, o);
    }
  }

  // ----- reservation -----

  lemma {:induction false} UnusedBound(ops: seq<Active>)
    requires forall i :: 0 <= i < |ops| ==> |ops[i].written| <= MAXOPBLOCKS
    ensures 0 <= Unused(ops) <= |ops| * MAXOPBLOCKS
  {
    if ops != [] {
      UnusedBound(ops[..|ops| - 1]);
    }
  }

  lemma {:induction false} UnusedConcat(a: seq<Active>, b: seq<Active>)
    ensures Unused(a + b) == Unused(a) + Unused(b)
  {
    if b == [] {
      assert a + b == a;
    } else {
      assert (a + b)[..|a + b| - 1] == a + b[..|b| - 1];
      UnusedConcat(a, b[..|b| - 1]);
    }
  }

  lemma UnusedAt(ops: seq<Active>, i: nat)
    requires i < |ops|
    ensures Unused(ops) == Unused(ops[..i]) + MAXOPBLOCKS - |ops[i].written| + Unused(ops[i + 1..])
  {
    assert ops == ops[..i] + [ops[i]] + ops[i + 1..];
    UnusedConcat(ops[..i] + [ops[i]], ops[i + 1..]);
    UnusedConcat(ops[..i], [ops[i]]);
    assert Unused([ops[i]]) == Unused([]) + MAXOPBLOCKS - |ops[i].written|;
  }

  lemma ReservedBegin(s: State)
    requires Reserved(s) && CanBegin(s)
    ensures Reserved(DoBegin(s))
  {
    UnusedBound(s.ops);
    UnusedConcat(s.ops, [Active(s.next, {})]);
    assert Unused([Active(s.next, {})]) == Unused([]) + MAXOPBLOCKS;
  }

  lemma ReservedWrite(g: Layout, s: State, i: nat, b: int, data: Block)
    requires Reserved(s) && CanWrite(g, s, i, b, data)
    ensures Reserved(DoWrite(g, s, i, b, data))
  {
    if !GuardFires(g, s) {
      var s' := DoWrite(g, s, i, b, data);
      UnusedAt(s.ops, i);
      UnusedAt(s'.ops, i);
      assert s'.ops[..i] == s.ops[..i] && s'.ops[i + 1..] == s.ops[i + 1..];
      if b in s.ops[i].written {
        assert s.ops[i].written + {b} == s.ops[i].written;
      }
    }
  }

  lemma ReservedEnd(s: State, i: nat)
    requires Reserved(s) && i < |s.ops|
    ensures Reserved(DoEnd(s, i))
  {
    UnusedAt(s.ops, i);
    UnusedConcat(s.ops[..i], s.ops[i + 1..]);
  }

  // ----- the disk -----

  lemma ReplaySnoc(home: map<int, Block>, us: seq<Update>, u: Update)
    ensures Replay(home, us + [u]) == Replay(home, us)[u.b := u.data]
  {
    assert (us + [u])[..|us|] == us;
  }

  lemma ReadyWrite(g: Layout, d: Disk, lh: seq<int>, cache: map<int, Block>, b: int, data: Block, lh': seq<int>)
    requires Ready(g, d, lh, cache) && Home(g, b) && |data| == WORDS && |lh| < LOGSIZE && |lh| < g.size - 1
    requires lh' == if b in lh then lh else lh + [b]
    ensures Ready(g, d, lh', cache[b := data])
    ensures Updated(g, d, lh', cache[b := data]) == Updated(g, d, lh, cache)[b := data]
  {
    hide ValidDisk;
    forall x | Home(g, x) ensures x in lh' <==> x in lh || x == b {
    }
  }

  lemma StoredWrite(g: Layout, home: map<int, Block>, s: State, i: nat, b: int, data: Block)
    requires Stored(g, home, s) && CanWrite(g, s, i, b, data)
    ensures Stored(g, home, DoWrite(g, s, i, b, data))
  {
    hide Ready, Updated, Homes;
    if !GuardFires(g, s) && s.phase.Running? {
      var s', u := DoWrite(g, s, i, b, data), Update(s.ops[i].id, b, data);
      ReadyWrite(g, s.disk, s.lh, s.cache, b, data, s'.lh);
      ReplaySnoc(home, s.history + s.group, u);
      assert s.history + s'.group == s.history + s.group + [u];
      assert s'.lh != [];
    }
  }

  lemma StoredCommitStep(g: Layout, home: map<int, Block>, s: State)
    requires Stored(g, home, s) && CanCommitStep(g, s)
    ensures Stored(g, home, DoCommitStep(g, s))
  {
    hide Recovered;
    var s' := DoCommitStep(g, s);
    if s.phase.k == |s.lh| {
      assert s'.history + s'.group == s'.history;
    }
  }

  lemma StoredCommitDone(g: Layout, home: map<int, Block>, s: State)
    requires Stored(g, home, s) && CanCommitDone(g, s)
    ensures Stored(g, home, DoCommitDone(s))
  {
    var s', from := DoCommitDone(s), s.phase.from;
    assert s'.history + s'.group == s'.history;
    if s.lh == [] {
      assert Updated(g, from, [], map[]) == Homes(g, from);
    } else {
      CommitEnds(g, from, s.lh, s.cache);
      assert Updated(g, s.disk, [], map[]) == Homes(g, s.disk);
    }
  }

  // At every moment the disk recovers to the replay of the committed updates.
  lemma StoredRecovers(g: Layout, home: map<int, Block>, s: State)
    requires Stored(g, home, s)
    ensures HeaderOk(g, s.disk) && Recovered(g, s.disk) == Replay(home, s.history)
  {
    hide Recovered, Updated, Homes;
    match s.phase
    case Running => EmptyHead(g, s.disk);
    case Committing(from, k) =>
      if k == 0 {
        EmptyHead(g, from);
      } else {
        CommitAtomic(g, from, s.lh, s.cache, k - 1);
      }
    case Recovering(from, k) =>
      if k > 0 {
        RecoveryIdempotent(g, from, k - 1);
      }
  }

  lemma StoredRecoverDone(g: Layout, home: map<int, Block>, s: State)
    requires Stored(g, home, s) && CanRecoverDone(g, s)
    ensures Stored(g, home, s.(phase := Running))
  {
    RecoveryEnds(g, s.phase.from);
    assert s.history + s.group == s.history;
    assert Updated(g, s.disk, [], map[]) == Homes(g, s.disk);
  }

  // ----- every step -----

  lemma GroupedSame(s: State, s': State)
    requires Grouped(s) && s'.all == s.all && s'.next == s.next && s'.history == s.history && s'.group == s.group
    requires s'.ops == s.ops
    ensures Grouped(s')
  {
  }

  lemma KeepEnd(g: Layout, home: map<int, Block>, s: State, i: nat)
    requires Inv(g, home, s) && i < |s.ops|
    ensures Inv(g, home, DoEnd(s, i)) && s.phase.Running?
  {
    ReservedEnd(s, i);
    hide Reserved;
    GroupedLess(s, DoEnd(s, i), i, i + 1);
    hide Grouped;
  }

  lemma KeepCommitStep(g: Layout, home: map<int, Block>, s: State)
    requires Inv(g, home, s) && CanCommitStep(g, s)
    ensures Inv(g, home, DoCommitStep(g, s))
  {
    hide Grouped, CommitTrace;
    StoredCommitStep(g, home, s);
    if s.phase.k == |s.lh| {
      GroupedCommit(s, DoCommitStep(g, s));
    } else {
      GroupedSame(s, DoCommitStep(g, s));
    }
  }

  lemma KeepCrash(g: Layout, home: map<int, Block>, s: State)
    requires Inv(g, home, s)
    ensures Inv(g, home, DoCrash(s))
  {
    StoredRecovers(g, home, s);
    GroupedLess(s, DoCrash(s), 0, |s.ops|);
    hide Grouped, Recovered;
  }

  lemma KeepCommitDone(g: Layout, home: map<int, Block>, s: State)
    requires Inv(g, home, s) && CanCommitDone(g, s)
    ensures Inv(g, home, DoCommitDone(s))
  {
    StoredCommitDone(g, home, s);
    GroupedSame(s, DoCommitDone(s));
    hide Grouped, CommitTrace;
  }

  lemma KeepRecovery(g: Layout, home: map<int, Block>, s: State, e: Event)
    requires Inv(g, home, s) && Enabled(g, s, e) && (e.RecoverStep? || e.RecoverDone?)
    ensures Inv(g, home, Do(g, s, e))
  {
    hide Grouped, RecoveryTrace;
    GroupedSame(s, Do(g, s, e));
    if e.RecoverDone? {
      StoredRecoverDone(g, home, s);
    }
  }

  lemma KeepWrite(g: Layout, home: map<int, Block>, s: State, i: nat, b: int, data: Block)
    requires Inv(g, home, s) && CanWrite(g, s, i, b, data)
    ensures Inv(g, home, DoWrite(g, s, i, b, data))
  {
    hide Grouped, Reserved, Stored;
    var s' := DoWrite(g, s, i, b, data);
    StoredWrite(g, home, s, i, b, data);
    ReservedWrite(g, s, i, b, data);
    if GuardFires(g, s) {
      GroupedSame(s, s');
    } else {
      GroupedWrite(s, s', i, Update(s.ops[i].id, b, data));
    }
  }

  lemma StepKeeps(g: Layout, home: map<int, Block>, s: State, e: Event)
    requires Inv(g, home, s) && Enabled(g, s, e)
    ensures Inv(g, home, Do(g, s, e))
  {
    match e
    case Begin =>
      GroupedBegin(s);
      ReservedBegin(s);
      hide Grouped, Reserved;
    case Write(i, b, data) => KeepWrite(g, home, s, i, b, data);
    case End(i) => KeepEnd(g, home, s, i);
    case CommitStep => KeepCommitStep(g, home, s);
    case CommitDone => KeepCommitDone(g, home, s);
    case Crash => KeepCrash(g, home, s);
    case RecoverStep => KeepRecovery(g, home, s, e);
    case RecoverDone => KeepRecovery(g, home, s, e);
  }

  // ----- whole runs -----

  // The first boot: some disk with a readable header, and nothing in memory.
  ghost predicate Boot(g: Layout, s: State)
  {
    && s.phase == Recovering(s.disk, 0) && HeaderOk(g, s.disk)
    && s.ops == [] && s.lh == [] && s.cache == map[] && s.group == [] && s.history == [] && s.all == [] && !s.panicked
  }

  ghost predicate IsRun(g: Layout, run: seq<State>, es: seq<Event>)
  {
    && |run| == |es| + 1 && Boot(g, run[0])
    && (forall i :: 0 <= i < |es| ==> Enabled(g, run[i], es[i]) && run[i + 1] == Do(g, run[i], es[i]))
  }

  lemma {:induction false} RunInv(g: Layout, run: seq<State>, es: seq<Event>, k: nat)
    requires IsRun(g, run, es) && k < |run|
    ensures Inv(g, Recovered(g, run[0].disk), run[k])
  {
    if k == 0 {
    } else {
      RunInv(g, run, es, k - 1);
      StepKeeps(g, Recovered(g, run[0].disk), run[k - 1], es[k - 1]);
    }
  }

  // Whatever the interleaving and wherever it crashes, the disk recovers to the initial
  // contents with whole operations applied, in the order in which they were made.
  lemma OperationsAreAtomic(g: Layout, run: seq<State>, es: seq<Event>, k: nat)
    requires IsRun(g, run, es) && k < |run|
    ensures HeaderOk(g, run[k].disk)
    ensures Recovered(g, run[k].disk) == Replay(Recovered(g, run[0].disk), run[k].history)
    ensures Whole(run[k].history, run[k].all)
  {
    hide Recovered, Of, Reserved;
    RunInv(g, run, es, k);
    StoredRecovers(g, Recovered(g, run[0].disk), run[k]);
  }

  // The header entries and all unused reservations fit, so an operation with
  // reservation left never meets a full log.
  lemma ReservationHolds(g: Layout, run: seq<State>, es: seq<Event>, k: nat)
    requires IsRun(g, run, es) && k < |run|
    ensures |run[k].lh| + Unused(run[k].ops) <= LOGSIZE
    ensures forall i :: 0 <= i < |run[k].ops| && |run[k].ops[i].written| < MAXOPBLOCKS ==> |run[k].lh| < LOGSIZE
  {
    var s := run[k];
    RunInv(g, run, es, k);
    forall i | 0 <= i < |s.ops| && |s.ops[i].written| < MAXOPBLOCKS ensures |s.lh| < LOGSIZE {
      UnusedAt(s.ops, i);
      UnusedBound(s.ops[..i]);
      UnusedBound(s.ops[i + 1..]);
    }
  }

  // What has been committed stays committed.
  lemma {:induction false} HistoryGrows(g: Layout, run: seq<State>, es: seq<Event>, j: nat, k: nat)
    requires IsRun(g, run, es) && j <= k < |run|
    ensures run[j].history <= run[k].history
  {
    if j < k {
      HistoryGrows(g, run, es, j, k - 1);
      assert run[k] == Do(g, run[k - 1], es[k - 1]);
    }
  }
}
