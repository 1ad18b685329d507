/**
  Whole runs of the virtio driver with a device that completes each submitted
  request once, in any order.  Steps are the regions under vdisk_lock and the
  device's own moves.
 */
module VirtioRun {
  import opened Optional
  import opened Virtio

  // The request whose chain starts at a descriptor.
  datatype Chain = Chain(b: nat, c: nat, buf: nat)

  datatype State = State(
    free: seq<bool>,
    desc: seq<Desc>,
    info: seq<Option<nat>>,     // info[i].b
    ring: seq<nat>,             // avail ring, written by the driver
    aidx: nat,                  // avail->idx, 16-bit
    dseen: nat,                 // how far the device has read it
    uring: seq<nat>,            // used ring, written by the device
    uidx: nat,                  // used->idx, 16-bit
    useen: nat,                 // disk.used_idx
    busy: set<nat>,             // buffers with b->disk == 1
    panicked: bool,
    chains: map<nat, Chain>,    // in-flight requests, by head
    queue: seq<nat>,            // heads offered and not yet read by the device
    held: set<nat>,             // heads the device works on
    done: seq<nat>)             // heads completed and not yet seen by the driver

  datatype Event =
    | Submit(buf: nat)
    | Take
    | Complete(h: nat)
    | Intr
    | Finish(h: nat)

  predicate Sized(s: State)
  {
    |s.free| == |s.desc| == |s.info| == |s.ring| == |s.uring| == NUM
  }

  // idx % NUM; NUM divides 2^16, so the slots run on across a wrap of idx.
  function Slot(x: nat): nat { x % NUM }

  // The slot k entries on.
  function SlotAt(x: nat, k: nat): nat { (x + k) % NUM }

  predicate Enabled(s: State, e: Event)
  {
    && Sized(s) && !s.panicked
    && match e
       case Submit(buf) => Three(s.free).Some? && forall h :: h in s.chains ==> s.chains[h].buf != buf
       case Take => s.dseen != s.aidx
       case Complete(h) => h in s.held
       case Intr => s.useen != s.uidx
       case Finish(h) => h in s.chains && s.chains[h].buf !in s.busy
  }

  function DoSubmit(s: State, buf: nat): State
    requires Sized(s) && Three(s.free).Some?
  {
    var (a, b, c) := Three(s.free).value;
    s.(free := s.free[a := false][b := false][c := false],
       desc := s.desc[a := Desc(1, true, b)][b := Desc(1, true, c)][c := Desc(1, false, 0)],
       info := s.info[a := Some(buf)], busy := s.busy + {buf},
       ring := s.ring[Slot(s.aidx) := a], aidx := (s.aidx + 1) % WRAP,
       chains := s.chains[a := Chain(b, c, buf)], queue := s.queue + [a])
  }

  // The device reads the next available head.
  function DoTake(s: State): State
    requires Sized(s)
  {
    if s.queue == [] then s.(panicked := true)
    else s.(dseen := (s.dseen + 1) % WRAP, held := s.held + {s.ring[Slot(s.dseen)]}, queue := s.queue[1..])
  }

  function DoComplete(s: State, h: nat): State
    requires Sized(s)
  {
    s.(held := s.held - {h}, uring := s.uring[Slot(s.uidx) := h], uidx := (s.uidx + 1) % WRAP, done := s.done + [h])
  }

  // One round of virtio_disk_intr's loop.
  function DoIntr(s: State): State
    requires Sized(s)
  {
    var id := s.uring[Slot(s.useen)];
    if id >= NUM || s.info[id].None? || s.done == [] then s.(panicked := true)
    else s.(busy := s.busy - {s.info[id].value}, useen := (s.useen + 1) % WRAP, done := s.done[1..])
  }

  // virtio_disk_rw resumes: free_chain(h), which panics on a free descriptor.
  function DoFinish(s: State, h: nat): State
    requires Sized(s)
  {
    if h >= NUM then s.(panicked := true)
    else
      var b := s.desc[h].next;
      if b >= NUM then s.(panicked := true)
      else
        var c := s.desc[b].next;
        if !Chained(s.desc, h, b, c) || s.free[h] || s.free[b] || s.free[c] then s.(panicked := true)
        else s.(info := s.info[h := None], free := s.free[h := true][b := true][c := true],
                desc := s.desc[h := CLEAR][b := CLEAR][c := CLEAR], chains := s.chains - {h})
  }

  function Do(s: State, e: Event): State
    requires Enabled(s, e)
  {
    match e
    case Submit(buf) => DoSubmit(s, buf)
    case Take => DoTake(s)
    case Complete(h) => DoComplete(s, h)
    case Intr => DoIntr(s)
    case Finish(h) => DoFinish(s, h)
  }

  // ----- the invariant -----

  // Descriptor d belongs to the chain that starts at h.
  predicate InChain(s: State, h: nat, d: nat)
  {
    h in s.chains && (d == h || d == s.chains[h].b || d == s.chains[h].c)
  }

  ghost predicate Chains(s: State)
    requires Sized(s)
  {
    && (forall h :: h in s.chains ==>
          h < NUM && Chained(s.desc, h, s.chains[h].b, s.chains[h].c) && s.info[h] == Some(s.chains[h].buf))
    && (forall h: nat, d: nat :: InChain(s, h, d) ==> d < NUM && !s.free[d])
    && (forall h: nat, g: nat, d: nat :: InChain(s, h, d) && InChain(s, g, d) ==> h == g)
    && (forall d :: 0 <= d < NUM && !s.free[d] ==> exists h: nat :: InChain(s, h, d))
    && (forall h, g :: h in s.chains && g in s.chains && h != g ==> s.chains[h].buf != s.chains[g].buf)
  }

  // q lists, without repetition, the unread entries of a ring from index from to index to.
  ghost predicate Entries(q: seq<nat>, ring: seq<nat>, from: nat, to: nat)
  {
    && |ring| == NUM && from < WRAP && to == (from + |q|) % WRAP && |q| <= NUM
    && (forall k :: 0 <= k < |q| ==> ring[SlotAt(from, k)] == q[k])
    && (forall k, l :: 0 <= k < l < |q| ==> q[k] != q[l])
  }

  // A request is offered, at the device, completed, or noticed; while its buffer is busy it is one of the first three.
  ghost predicate Phases(s: State)
  {
    && (forall h :: h in s.queue || h in s.held || h in s.done ==> h in s.chains)
    && (forall h :: h in s.queue ==> h !in s.held && h !in s.done) && (forall h :: h in s.held ==> h !in s.done)
    && (forall h :: h in s.chains ==> (s.chains[h].buf in s.busy <==> h in s.queue || h in s.held || h in s.done))
  }

  // alloc3_desc finds cleared descriptors.
  predicate Cleared(s: State)
    requires Sized(s)
  {
    forall d :: 0 <= d < NUM && s.free[d] ==> s.desc[d] == CLEAR
  }

  ghost predicate Inv(s: State)
  {
    && Sized(s) && !s.panicked && Chains(s) && Phases(s) && Cleared(s)
    && Entries(s.queue, s.ring, s.dseen, s.aidx) && Entries(s.done, s.uring, s.useen, s.uidx)
  }

  // ----- rings -----

  // A head outside q leaves room for one more entry, in a slot that holds no unread one.
  lemma RoomFor(q: seq<nat>, h: nat, ring: seq<nat>, from: nat, to: nat)
    requires Entries(q, ring, from, to) && h < NUM && h !in q && forall k :: 0 <= k < |q| ==> q[k] < NUM
    ensures |q| < NUM && Entries(q + [h], ring[Slot(to) := h], from, (to + 1) % WRAP)
    ensures forall k :: 0 <= k < |q| ==> SlotAt(from, k) != Slot(to)
  {
    Pigeons(q, h);
    var ring' := ring[Slot(to) := h];
    assert Slot(to) == SlotAt(from, |q|);
    forall k | 0 <= k < |q| ensures SlotAt(from, k) != Slot(to) {
      Differ(from, k, |q|);
    }
    forall k | 0 <= k < |q| + 1 ensures ring'[SlotAt(from, k)] == (q + [h])[k] {
    }
  }

  lemma Differ(from: nat, k: nat, n: nat)
    requires k < n < NUM
    ensures SlotAt(from, k) != SlotAt(from, n)
  {
  }

  // Distinct numbers below NUM that avoid h are fewer than NUM.
  lemma Pigeons(q: seq<nat>, h: nat)
    requires h < NUM && h !in q && (forall k :: 0 <= k < |q| ==> q[k] < NUM)
    requires forall k, l :: 0 <= k < l < |q| ==> q[k] != q[l]
    ensures |q| < NUM
  {
    var all: set<nat> := {0, 1, 2, 3, 4, 5, 6, 7};
    var mine := set k: nat | k < |q| :: q[k];
    SetOf(q, |q|);
    assert mine <= all - {h};
    Smaller(mine, all - {h});
    assert |all| == 8 && h in all;
  }

  lemma {:induction false} SetOf(q: seq<nat>, n: nat)
    requires n <= |q| && forall k, l :: 0 <= k < l < |q| ==> q[k] != q[l]
    ensures |(set k: nat | k < n :: q[k])| == n
  {
    if n > 0 {
      SetOf(q, n - 1);
      assert (set k: nat | k < n :: q[k]) == (set k: nat | k < n - 1 :: q[k]) + {q[n - 1]};
    }
  }

  lemma Smaller(a: set<nat>, b: set<nat>)
    requires a <= b
    ensures |a| <= |b|
  {
    assert b == a + (b - a);
  }

  lemma Popped(q: seq<nat>, ring: seq<nat>, from: nat, to: nat)
    requires Entries(q, ring, from, to) && q != []
    ensures ring[Slot(from)] == q[0] && Entries(q[1..], ring, (from + 1) % WRAP, to)
  {
    forall k | 0 <= k < |q| - 1 ensures ring[SlotAt((from + 1) % WRAP, k)] == q[1..][k] {
      assert SlotAt((from + 1) % WRAP, k) == SlotAt(from, k + 1);
    }
  }

  // ----- each step -----

  // The step with its three descriptors named.
  ghost predicate Submitted(s: State, s': State, a: nat, b: nat, c: nat, buf: nat)
  {
    && Sized(s) && Sized(s') && a < b < c < NUM && s.free[a] && s.free[b] && s.free[c]
    && s'.free == s.free[a := false][b := false][c := false]
    && s'.desc == s.desc[a := Desc(1, true, b)][b := Desc(1, true, c)][c := Desc(1, false, 0)]
    && s'.info == s.info[a := Some(buf)] && s'.chains == s.chains[a := Chain(b, c, buf)]
  }

  lemma SubmitCleared(s: State, s': State, a: nat, b: nat, c: nat, buf: nat)
    requires Submitted(s, s', a, b, c, buf) && Cleared(s)
    ensures Cleared(s')
  {
  }

  lemma SubmitIn(s: State, s': State, a: nat, b: nat, c: nat, buf: nat, h: nat, d: nat)
    requires Submitted(s, s', a, b, c, buf) && a !in s.chains
    ensures InChain(s', h, d) <==> InChain(s, h, d) || (h == a && (d == a || d == b || d == c))
  {
  }

  // The chain at h after the submission.
  lemma SubmitChain(s: State, s': State, a: nat, b: nat, c: nat, buf: nat, h: nat)
    requires Submitted(s, s', a, b, c, buf) && Chains(s) && a !in s.chains && h in s'.chains
    ensures h < NUM && Chained(s'.desc, h, s'.chains[h].b, s'.chains[h].c) && s'.info[h] == Some(s'.chains[h].buf)
  {
    if h != a {
      OwnParts(s, h);
    }
  }

  lemma SubmitUsed(s: State, s': State, a: nat, b: nat, c: nat, buf: nat, d: nat)
    requires Submitted(s, s', a, b, c, buf) && d < NUM
    ensures s'.free[d] <==> s.free[d] && d != a && d != b && d != c
    ensures s.free[a] && s.free[b] && s.free[c] && a < NUM && b < NUM && c < NUM
  {
  }

  lemma SubmitChains(s: State, s': State, a: nat, b: nat, c: nat, buf: nat)
    requires Submitted(s, s', a, b, c, buf) && Chains(s) && a !in s.chains
    requires forall h :: h in s.chains ==> s.chains[h].buf != buf
    ensures Chains(s')
  {
    assert s'.chains == s.chains[a := Chain(b, c, buf)];
    hide InChain, Submitted, Chained;
    forall h: nat, d: nat ensures InChain(s', h, d) <==> InChain(s, h, d) || (h == a && (d == a || d == b || d == c)) {
      SubmitIn(s, s', a, b, c, buf, h, d);
    }
    forall d: nat | d < NUM
      ensures (s'.free[d] <==> s.free[d] && d != a && d != b && d != c) && s.free[a] && s.free[b] && s.free[c]
    {
      SubmitUsed(s, s', a, b, c, buf, d);
    }
    forall d: nat | d < NUM && !s'.free[d] ensures exists h: nat :: InChain(s', h, d) {
      if !s.free[d] {
        var h: nat :| InChain(s, h, d);
        assert InChain(s', h, d);
      } else {
        assert InChain(s', a, d);
      }
    }
    SubmitUsed(s, s', a, b, c, buf, 0);
    forall h | h in s'.chains
      ensures h < NUM && Chained(s'.desc, h, s'.chains[h].b, s'.chains[h].c) && s'.info[h] == Some(s'.chains[h].buf)
    {
      SubmitChain(s, s', a, b, c, buf, h);
    }
  }

  lemma OwnParts(s: State, h: nat)
    requires h in s.chains
    ensures InChain(s, h, h) && InChain(s, h, s.chains[h].b) && InChain(s, h, s.chains[h].c)
  {
  }

  lemma KeepSubmit(s: State, buf: nat)
    requires Inv(s) && Enabled(s, Submit(buf))
    ensures Inv(DoSubmit(s, buf))
  {
    hide Chains, Entries, Three;
    var s' := DoSubmit(s, buf);
    ThreeFree(s.free);
    var (a, b, c) := Three(s.free).value;
    HeadsFresh(s, a);
    SubmitChains(s, s', a, b, c, buf);
    SubmitCleared(s, s', a, b, c, buf);
    RoomFor(s.queue, a, s.ring, s.dseen, s.aidx);
    assert forall h :: h in s'.queue <==> h in s.queue || h == a;
  }

  lemma ThreeFree(free: seq<bool>)
    requires Three(free).Some?
    ensures var (a, b, c) := Three(free).value; a < b < c < |free| && free[a] && free[b] && free[c]
  {
  }

  // A free descriptor heads no request.
  lemma HeadsFresh(s: State, a: nat)
    requires Inv(s) && a < NUM && s.free[a]
    ensures a !in s.chains && a !in s.queue && (forall k :: 0 <= k < |s.queue| ==> s.queue[k] < NUM)
    ensures (forall k :: 0 <= k < |s.done| ==> s.done[k] < NUM)
  {
    if a in s.chains {
      assert InChain(s, a, a);
    }
    forall k | 0 <= k < |s.queue| ensures s.queue[k] < NUM {
      assert s.queue[k] in s.queue;
    }
    forall k | 0 <= k < |s.done| ensures s.done[k] < NUM {
      assert s.done[k] in s.done;
    }
  }

  lemma SameChains(s: State, s': State)
    requires Sized(s) && Chains(s) && Sized(s') && s'.free == s.free && s'.desc == s.desc && s'.info == s.info
    requires s'.chains == s.chains && Cleared(s)
    ensures Chains(s') && Cleared(s')
  {
    forall h: nat, d: nat ensures InChain(s', h, d) <==> InChain(s, h, d) {
    }
    forall d | 0 <= d < NUM && !s'.free[d] ensures exists h: nat :: InChain(s', h, d) {
      var h: nat :| InChain(s, h, d);
      assert InChain(s', h, d);
    }
  }

  lemma KeepTake(s: State)
    requires Inv(s) && Enabled(s, Take)
    ensures Inv(DoTake(s))
  {
    hide Chains, Cleared;
    var s' := DoTake(s);
    Popped(s.queue, s.ring, s.dseen, s.aidx);
    SameChains(s, s');
    Split(s.queue);
  }

  lemma Split(q: seq<nat>)
    requires q != [] && forall k, l :: 0 <= k < l < |q| ==> q[k] != q[l]
    ensures q[0] !in q[1..] && forall h :: h in q <==> h == q[0] || h in q[1..]
  {
  }

  lemma DoneHeads(s: State)
    requires Inv(s)
    ensures forall k :: 0 <= k < |s.done| ==> s.done[k] < NUM
  {
    hide Cleared, Entries;
    forall k | 0 <= k < |s.done| ensures s.done[k] < NUM {
      assert s.done[k] in s.done;
    }
  }

  lemma KeepComplete(s: State, h: nat)
    requires Inv(s) && Enabled(s, Complete(h))
    ensures Inv(DoComplete(s, h))
  {
    hide Chains, Cleared, Entries;
    var s' := DoComplete(s, h);
    DoneHeads(s);
    ChainAt(s, h);
    RoomFor(s.done, h, s.uring, s.useen, s.uidx);
    SameChains(s, s');
    assert forall g :: g in s'.done <==> g in s.done || g == h;
  }

  // The buffer that the interrupt handler releases is the one whose request was completed.
  lemma IntrRight(s: State)
    requires Inv(s) && Enabled(s, Intr)
    ensures s.done != [] && s.uring[Slot(s.useen)] == s.done[0] && s.done[0] in s.chains && s.done[0] < NUM
    ensures s.info[s.done[0]] == Some(s.chains[s.done[0]].buf) && s.chains[s.done[0]].buf in s.busy
  {
    Popped(s.done, s.uring, s.useen, s.uidx);
    assert s.done[0] in s.done;
  }

  lemma Distinct(q: seq<nat>, ring: seq<nat>, from: nat, to: nat)
    requires Entries(q, ring, from, to)
    ensures forall k, l :: 0 <= k < l < |q| ==> q[k] != q[l]
  {
  }

  lemma BuffersDiffer(s: State)
    requires Inv(s)
    ensures forall h, g :: h in s.chains && g in s.chains && h != g ==> s.chains[h].buf != s.chains[g].buf
  {
    hide Cleared, Entries, Phases;
  }

  lemma KeepIntr(s: State)
    requires Inv(s) && Enabled(s, Intr)
    ensures Inv(DoIntr(s))
  {
    hide Chains, Cleared, Entries;
    var s' := DoIntr(s);
    IntrRight(s);
    Popped(s.done, s.uring, s.useen, s.uidx);
    SameChains(s, s');
    Distinct(s.done, s.uring, s.useen, s.uidx);
    Split(s.done);
    BuffersDiffer(s);
  }

  lemma KeepFinish(s: State, h: nat)
    requires Inv(s) && Enabled(s, Finish(h))
    ensures Inv(DoFinish(s, h))
  {
    var s' := DoFinish(s, h);
    FinishChains(s, h);
    hide Chains, Entries;
  }

  // s' is s with the chain h -> b -> c freed.
  ghost predicate Finished(s: State, s': State, h: nat, b: nat, c: nat)
  {
    && Sized(s) && Sized(s') && h < NUM && b < NUM && c < NUM && h != b && h != c && b != c
    && s'.free == s.free[h := true][b := true][c := true] && s'.desc == s.desc[h := CLEAR][b := CLEAR][c := CLEAR]
    && s'.info == s.info[h := None] && s'.chains == s.chains - {h}
  }

  lemma FinishCleared(s: State, s': State, h: nat, b: nat, c: nat)
    requires Finished(s, s', h, b, c) && Cleared(s)
    ensures Cleared(s')
  {
  }

  lemma FinishUsed(s: State, s': State, h: nat, b: nat, c: nat, d: nat)
    requires Finished(s, s', h, b, c) && d < NUM
    ensures s'.free[d] <==> s.free[d] || d == h || d == b || d == c
    ensures d != h && d != b && d != c ==> s'.desc[d] == s.desc[d] && s'.info[d] == s.info[d]
  {
  }

  // A descriptor of one chain is in no other.
  lemma PartApart(s: State, g: nat, h: nat, d: nat)
    requires Sized(s) && Chains(s) && h in s.chains && g != h && InChain(s, g, d)
    ensures d < NUM && d != h && d != s.chains[h].b && d != s.chains[h].c
  {
    hide Chained;
    assert !InChain(s, h, d);
  }

  lemma ChainAt(s: State, h: nat)
    requires Sized(s) && Chains(s) && h in s.chains
    ensures h < NUM && Chained(s.desc, h, s.chains[h].b, s.chains[h].c) && s.info[h] == Some(s.chains[h].buf)
  {
  }

  lemma FinishChain(s: State, s': State, h: nat, b: nat, c: nat, g: nat)
    requires Finished(s, s', h, b, c) && Chains(s) && h in s.chains && s.chains[h].b == b && s.chains[h].c == c
    requires g in s'.chains
    ensures g < NUM && Chained(s'.desc, g, s'.chains[g].b, s'.chains[g].c) && s'.info[g] == Some(s'.chains[g].buf)
  {
    hide Finished, Chains, InChain;
    FinishMap(s, s', h, b, c);
    OwnParts(s, g);
    ChainAt(s, g);
    PartApart(s, g, h, g);
    PartApart(s, g, h, s.chains[g].b);
    PartApart(s, g, h, s.chains[g].c);
    FinishUsed(s, s', h, b, c, g);
    FinishUsed(s, s', h, b, c, s.chains[g].b);
    FinishUsed(s, s', h, b, c, s.chains[g].c);
  }

  lemma FinishMap(s: State, s': State, h: nat, b: nat, c: nat)
    requires Finished(s, s', h, b, c)
    ensures s'.chains == s.chains - {h} && Sized(s) && Sized(s')
  {
  }

  lemma FinishKeeps(s: State, s': State, h: nat, b: nat, c: nat)
    requires Finished(s, s', h, b, c) && Chains(s) && h in s.chains && s.chains[h].b == b && s.chains[h].c == c
    ensures Chains(s')
  {
    FinishMap(s, s', h, b, c);
    hide InChain, Finished, Chained;
    OwnParts(s, h);
    forall g: nat, d: nat ensures InChain(s', g, d) <==> InChain(s, g, d) && g != h {
      FinishIn(s, s', h, g, d);
    }
    forall d: nat | d < NUM ensures s'.free[d] <==> s.free[d] || d == h || d == b || d == c {
      FinishUsed(s, s', h, b, c, d);
    }
    forall g: nat, d: nat | InChain(s', g, d) ensures d < NUM && !s'.free[d] {
      assert InChain(s, g, d);
    }
    forall d: nat | d < NUM && !s'.free[d] ensures exists g: nat :: InChain(s', g, d) {
      var g: nat :| InChain(s, g, d);
      ChainHead(s, h, b, c, g, d);
      assert InChain(s', g, d);
    }
    forall g | g in s'.chains
      ensures g < NUM && Chained(s'.desc, g, s'.chains[g].b, s'.chains[g].c) && s'.info[g] == Some(s'.chains[g].buf)
    {
      FinishChain(s, s', h, b, c, g);
    }
  }

  lemma FinishIn(s: State, s': State, h: nat, g: nat, d: nat)
    requires s'.chains == s.chains - {h}
    ensures InChain(s', g, d) <==> InChain(s, g, d) && g != h
  {
  }

  lemma ChainHead(s: State, h: nat, b: nat, c: nat, g: nat, d: nat)
    requires h in s.chains && s.chains[h].b == b && s.chains[h].c == c && InChain(s, g, d) && d != h && d != b && d != c
    ensures g != h
  {
  }

  lemma FinishChains(s: State, h: nat)
    requires Sized(s) && Chains(s) && Cleared(s) && Enabled(s, Finish(h))
    ensures var s' := DoFinish(s, h);
      Sized(s') && Chains(s') && Cleared(s') && !s'.panicked && s'.chains == s.chains - {h}
    ensures var s' := DoFinish(s, h); s'.queue == s.queue && s'.held == s.held && s'.done == s.done && s'.busy == s.busy
  {
    hide Cleared;
    var s', b, c := DoFinish(s, h), s.chains[h].b, s.chains[h].c;
    assert Finished(s, s', h, b, c) && !s'.panicked by {
      OwnParts(s, h);
    }
    hide Chains;
    FinishKeeps(s, s', h, b, c);
    FinishCleared(s, s', h, b, c);
  }

  lemma StepKeeps(s: State, e: Event)
    requires Inv(s) && Enabled(s, e)
    ensures Inv(Do(s, e))
  {
    hide Inv;
    match e
    case Submit(buf) => KeepSubmit(s, buf);
    case Take => KeepTake(s);
    case Complete(h) => KeepComplete(s, h);
    case Intr => KeepIntr(s);
    case Finish(h) => KeepFinish(s, h);
  }

  // ----- every run -----

  ghost predicate Boot(s: State)
  {
    && Sized(s) && !s.panicked && (forall d :: 0 <= d < NUM ==> s.free[d] && s.desc[d] == CLEAR)
    && s.aidx == 0 && s.dseen == 0 && s.uidx == 0 && s.useen == 0 && s.busy == {} && s.chains == map[]
    && s.queue == [] && s.held == {} && s.done == []
  }

  ghost predicate IsRun(run: seq<State>, es: seq<Event>)
  {
    && |run| == |es| + 1 && Boot(run[0])
    && (forall i :: 0 <= i < |es| ==> Enabled(run[i], es[i]) && run[i + 1] == Do(run[i], es[i]))
  }

  lemma {:induction false} RunInv(run: seq<State>, es: seq<Event>, k: nat)
    requires IsRun(run, es) && k < |run|
    ensures Inv(run[k])
  {
    if k > 0 {
      RunInv(run, es, k - 1);
      StepKeeps(run[k - 1], es[k - 1]);
    }
  }

  // Every descriptor is free and cleared or in exactly one in-flight chain of three; nothing panics.
  lemma DescriptorsAccounted(run: seq<State>, es: seq<Event>, k: nat, d: nat)
    requires IsRun(run, es) && k < |run| && d < NUM
    ensures Sized(run[k]) && !run[k].panicked
    ensures run[k].free[d] <==> forall h: nat :: !InChain(run[k], h, d)
    ensures run[k].free[d] ==> run[k].desc[d] == CLEAR
    ensures forall h: nat, g: nat :: InChain(run[k], h, d) && InChain(run[k], g, d) ==> h == g
    ensures forall h: nat :: h in run[k].chains ==> Chained(run[k].desc, h, run[k].chains[h].b, run[k].chains[h].c)
  {
    hide IsRun;
    RunInv(run, es, k);
  }

  // A submission writes a slot of the available ring that the device has already read.
  lemma SlotIsFree(run: seq<State>, es: seq<Event>, k: nat)
    requires IsRun(run, es) && k < |es| && es[k].Submit?
    ensures forall i :: 0 <= i < |run[k].queue| ==> SlotAt(run[k].dseen, i) != Slot(run[k].aidx)
    ensures Sized(run[k])
    ensures forall i :: 0 <= i < |run[k].queue| ==> run[k].ring[SlotAt(run[k].dseen, i)] == run[k].queue[i]
  {
    var s := run[k];
    RunInv(run, es, k);
    assert Enabled(s, es[k]);
    hide IsRun;
    var (a, b, c) := Three(s.free).value;
    HeadsFresh(s, a);
    RoomFor(s.queue, a, s.ring, s.dseen, s.aidx);
  }
}
