/** The buffer cache stays coherent with the disk, whatever clients and committer interleave. */
module CacheCoherence {
  import opened Optional
  import opened CacheModel

  // ----- what a step leaves alone -----

  predicate SameKeys(s: State, s': State)
  {
    |s'.bufs| == |s.bufs| && forall b :: 0 <= b < |s.bufs| ==> s'.bufs[b].key == s.bufs[b].key
  }

  lemma UniqueSame(s: State, s': State)
    requires Unique(s) && SameKeys(s, s')
    ensures Unique(s')
  {
  }

  lemma UsersSame(s: State, s': State)
    requires s'.refs == s.refs
    ensures forall b: nat :: Users(s', b) == Users(s, b)
  {
  }

  // Only locks, contents and the disk move: the counts are the same.
  lemma CountedSame(s: State, s': State)
    requires Counted(s) && SameKeys(s, s') && s'.refs == s.refs && s'.pins == s.pins && s.disk.Keys <= s'.disk.Keys
    requires forall b :: 0 <= b < |s.bufs| ==> s'.bufs[b].refcnt == s.bufs[b].refcnt
    requires forall b :: 0 <= b < |s.bufs| && s'.bufs[b].locked.Some? ==> Ref(s'.bufs[b].locked.value, b) in s.refs
    requires forall b :: 0 <= b < |s.bufs| && s'.bufs[b].valid ==> s'.bufs[b].key.dev != 0 && s'.bufs[b].key in s'.disk
    ensures Counted(s')
  {
    UsersSame(s, s');
  }

  predicate SameLog(s: State, s': State)
  {
    s'.log == s.log && s'.lh == s.lh
  }

  lemma ListedSame(s: State, s': State)
    requires Listed(s) && SameLog(s, s')
    ensures Listed(s')
  {
  }

  lemma WaitingSame(s: State, s': State, k: Key)
    requires s'.lh == s.lh && First(s') == First(s)
    ensures Waiting(s', k) <==> Waiting(s, k)
  {
  }

  lemma PinnedSame(s: State, s': State)
    requires Pinned(s) && s'.lh == s.lh && First(s') == First(s) && s'.pins == s.pins && |s'.bufs| == |s.bufs|
    requires forall b :: 0 <= b < |s.bufs| && b in s.pins ==>
      s'.bufs[b].key == s.bufs[b].key && (s.bufs[b].valid ==> s'.bufs[b].valid)
    ensures Pinned(s')
  {
    hide Waiting, First;
    forall k ensures Waiting(s', k) <==> Waiting(s, k) {
      WaitingSame(s, s', k);
    }
    forall k | Waiting(s', k) ensures exists b: nat :: PinnedKey(s', k, b) {
      var b: nat :| PinnedKey(s, k, b);
      assert PinnedKey(s', k, b);
    }
  }

  // The committer stays where it is, and its buffer with it.
  lemma StagedSame(s: State, s': State)
    requires Staged(s) && s'.commit == s.commit && s'.lh == s.lh && s'.log == s.log && s'.disk == s.disk
    requires (s.commit.On? ==> s'.ops == s.ops)
    requires forall b: nat :: Busy(s.commit) == Some(b) && b < |s.bufs| ==>
      b < |s'.bufs| && s'.bufs[b] == s.bufs[b].(refcnt := s'.bufs[b].refcnt)
    ensures Staged(s')
  {
  }

  lemma CopiedSame(s: State, s': State)
    requires Copied(s) && SameLog(s, s') && s'.commit == s.commit && s'.pins == s.pins && s'.disk == s.disk
    requires |s'.bufs| == |s.bufs|
    requires forall b :: 0 <= b < |s.bufs| && (b in s.pins || Busy(s.commit) == Some(b)) ==>
      s'.bufs[b].key == s.bufs[b].key && s'.bufs[b].data == s.bufs[b].data
    ensures Copied(s')
  {
    hide HomeKey;
    forall i, b: nat | 0 <= i < Done(s') && i < |s'.lh| && PinnedKey(s', s'.lh[i], b)
      ensures SlotHas(s', i, s'.bufs[b].data)
    {
      assert PinnedKey(s, s.lh[i], b);
    }
    if s.commit.On? && s.commit.at.CopyWrite? && s.commit.at.t < |s.lh| && s.commit.at.b < |s.bufs| {
      forall b: nat | PinnedKey(s', s'.lh[s.commit.at.t], b) ensures s'.bufs[s.commit.at.b].data == s'.bufs[b].data {
        assert PinnedKey(s, s.lh[s.commit.at.t], b);
      }
    }
  }

  // ----- references -----

  lemma UsersMore(s: State, s': State, r: Ref, b: nat)
    requires s'.refs == s.refs + {r} && r !in s.refs
    ensures |Users(s', b)| == |Users(s, b)| + if r.b == b then 1 else 0
  {
    assert Users(s', b) == if r.b == b then Users(s, b) + {r} else Users(s, b);
  }

  lemma UsersLess(s: State, s': State, r: Ref, b: nat)
    requires s'.refs == s.refs - {r} && r in s.refs
    ensures |Users(s', b)| == |Users(s, b)| - if r.b == b then 1 else 0
  {
    assert Users(s, b) == if r.b == b then Users(s', b) + {r} else Users(s', b);
  }

  // An unreferenced buffer is neither used, nor locked, nor pinned.
  lemma Unused(s: State, b: nat)
    requires Counted(s) && b < |s.bufs| && s.bufs[b].refcnt == 0
    ensures Users(s, b) == {} && b !in s.pins && s.bufs[b].locked.None?
  {
    assert Users(s, b) == {};
    forall p: nat ensures Ref(p, b) !in s.refs {
      assert Ref(p, b) !in Users(s, b);
    }
  }

  // The committer's buffer is locked, so it has a user.
  lemma BusyLocked(s: State, b: nat)
    requires Staged(s) && Busy(s.commit) == Some(b)
    ensures b < |s.bufs| && s.bufs[b].locked == Some(s.commit.p) && s.bufs[b].valid
  {
  }

  lemma GetCounted(s: State, p: nat, b: nat, key: Key)
    requires Counted(s) && Enabled(s, Get(p, b, key))
    ensures Counted(Do(s, Get(p, b, key)))
  {
    hide Users;
    var s' := Do(s, Get(p, b, key));
    if s.bufs[b].key != key {
      Unused(s, b);
    }
    forall c | 0 <= c < |s'.bufs| ensures s'.bufs[c].refcnt == |Users(s', c)| + if c in s'.pins then 1 else 0 {
      UsersMore(s, s', Ref(p, b), c);
    }
    forall r | r in s'.refs ensures r.b < |s'.bufs| && s'.bufs[r.b].key.dev != 0 {
    }
  }

  lemma KeepGet(s: State, p: nat, b: nat, key: Key)
    requires Inv(s) && Enabled(s, Get(p, b, key))
    ensures Inv(Do(s, Get(p, b, key)))
  {
    hide Counted, Staged, Pinned, Copied, Listed, Busy;
    var s' := Do(s, Get(p, b, key));
    GetCounted(s, p, b, key);
    if s.bufs[b].key != key {
      Unused(s, b);
      if Busy(s.commit) == Some(b) {
        BusyLocked(s, b);
      }
    }
    ListedSame(s, s');
    PinnedSame(s, s');
    StagedSame(s, s');
    CopiedSame(s, s');
    forall c | 0 <= c < |s'.bufs| && Dirty(s', c) ensures Dirty(s, c) && (c == b ==> s.bufs[b].key == key) {
    }
  }

  lemma UnrefCounted(s: State, p: nat, b: nat)
    requires Counted(s) && Enabled(s, Unref(p, b))
    ensures Counted(Do(s, Unref(p, b)))
  {
    hide Users;
    var s' := Do(s, Unref(p, b));
    forall c | 0 <= c < |s'.bufs| ensures s'.bufs[c].refcnt == |Users(s', c)| + if c in s'.pins then 1 else 0 {
      UsersLess(s, s', Ref(p, b), c);
    }
  }

  lemma KeepUnref(s: State, p: nat, b: nat)
    requires Inv(s) && Enabled(s, Unref(p, b))
    ensures Inv(Do(s, Unref(p, b)))
  {
    hide Unique, Counted, Staged, Pinned, Copied, Listed, Busy;
    var s' := Do(s, Unref(p, b));
    UnrefCounted(s, p, b);
    UniqueSame(s, s');
    ListedSame(s, s');
    PinnedSame(s, s');
    StagedSame(s, s');
    CopiedSame(s, s');
    forall c | 0 <= c < |s'.bufs| && Dirty(s', c) ensures Dirty(s, c) {
    }
  }

  // ----- locks and contents of one buffer -----

  predicate HolderEvent(e: Event)
  {
    e.Lock? || e.Fill? || e.Unlock? || e.Modify?
  }

  lemma HolderCounted(s: State, e: Event)
    requires Counted(s) && Enabled(s, e) && HolderEvent(e)
    ensures Counted(Do(s, e))
  {
    assert s.bufs[e.b].locked.Some? ==> Ref(s.bufs[e.b].locked.value, e.b) in s.refs;
    CountedSame(s, Do(s, e));
  }

  // No committer while a process is in an operation; its buffer is not the one filled or changed.
  lemma NotBusy(s: State, e: Event)
    requires Staged(s) && Enabled(s, e) && HolderEvent(e)
    ensures Busy(s.commit) != Some(e.b) && (e.Modify? ==> s.commit.Off?)
  {
    if Busy(s.commit).Some? {
      BusyLocked(s, Busy(s.commit).value);
    }
  }

  // The buffer that holds a waiting block is the pinned one.
  lemma WaitingIsPinned(s: State, b: nat)
    requires Unique(s) && Pinned(s) && b < |s.bufs| && s.bufs[b].key.dev != 0 && Waiting(s, s.bufs[b].key)
    ensures b in s.pins
  {
    var c: nat :| PinnedKey(s, s.bufs[b].key, c);
    assert c == b;
  }

  lemma ListedWaits(s: State, k: Key)
    requires s.commit.Off? && k in s.lh
    ensures Waiting(s, k)
  {
  }

  lemma HolderCoherent(s: State, e: Event)
    requires Unique(s) && Counted(s) && Pinned(s) && Staged(s) && Coherent(s) && Enabled(s, e) && HolderEvent(e)
    ensures Coherent(Do(s, e))
  {
    hide Users, Waiting, Pinned, Unique, Staged;
    NotBusy(s, e);
    var s' := Do(s, e);
    if e.Unlock? && Dirty(s, e.b) && e.p in s.ops {
      OpMeansOff(s, e.p);
      ListedWaits(s, s.bufs[e.b].key);
      WaitingIsPinned(s, e.b);
    }
    forall c | 0 <= c < |s'.bufs| && Dirty(s', c)
      ensures
        || (s'.bufs[c].locked.Some? && s'.bufs[c].locked.value in s'.ops)
        || c in s'.pins || Busy(s'.commit) == Some(c)
    {
      assert Dirty(s, c) || (e.Modify? && c == e.b);
    }
  }

  lemma OpMeansOff(s: State, p: nat)
    requires Staged(s) && p in s.ops
    ensures s.commit.Off?
  {
  }

  lemma KeepHolder(s: State, e: Event)
    requires Inv(s) && Enabled(s, e) && HolderEvent(e)
    ensures Inv(Do(s, e))
  {
    hide Unique, Counted, Listed, Pinned, Staged, Coherent, Copied;
    var s' := Do(s, e);
    NotBusy(s, e);
    HolderCounted(s, e);
    UniqueSame(s, s');
    ListedSame(s, s');
    PinnedSame(s, s');
    StagedSame(s, s');
    HolderCoherent(s, e);
    HolderCopied(s, e);
  }

  // A pinned buffer is filled, and changed only when no copy has been made.
  lemma HolderCopied(s: State, e: Event)
    requires Copied(s) && Pinned(s) && Staged(s) && Enabled(s, e) && HolderEvent(e)
    ensures Copied(Do(s, e))
  {
    hide Waiting;
    NotBusy(s, e);
    if !e.Modify? {
      CopiedSame(s, Do(s, e));
    }
  }

  // ----- operations -----

  lemma KeepBegin(s: State, p: nat)
    requires Inv(s) && Enabled(s, Begin(p))
    ensures Inv(Do(s, Begin(p)))
  {
    hide Unique, Counted, Listed, Pinned, Staged, Copied;
    var s' := Do(s, Begin(p));
    UniqueSame(s, s');
    CountedSame(s, s') by { CountedParts(s); }
    ListedSame(s, s');
    PinnedSame(s, s');
    StagedSame(s, s');
    CopiedSame(s, s');
    forall c | 0 <= c < |s'.bufs| && Dirty(s', c) ensures Dirty(s, c) {
    }
  }

  lemma CountedParts(s: State)
    requires Counted(s)
    ensures forall b :: 0 <= b < |s.bufs| && s.bufs[b].locked.Some? ==> Ref(s.bufs[b].locked.value, b) in s.refs
    ensures forall b :: 0 <= b < |s.bufs| && s.bufs[b].valid ==> s.bufs[b].key.dev != 0 && s.bufs[b].key in s.disk
  {
  }

  // The last operation ends: everything that differs from the disk is in the log and pinned.
  lemma KeepEnd(s: State, p: nat)
    requires Inv(s) && Enabled(s, End(p))
    ensures Inv(Do(s, End(p)))
  {
    hide Unique, Counted, Listed, Pinned, Staged, Copied;
    var s' := Do(s, End(p));
    OpMeansOff(s, p);
    UniqueSame(s, s');
    CountedParts(s);
    CountedSame(s, s');
    ListedSame(s, s');
    PinnedSame(s, s');
    EndStaged(s, p);
    forall c | 0 <= c < |s'.bufs| && Dirty(s', c)
      ensures (s'.bufs[c].locked.Some? && s'.bufs[c].locked.value in s'.ops) || c in s'.pins
    {
      assert Dirty(s, c);
      if s.bufs[c].locked == Some(p) {
        ListedWaits(s, s.bufs[c].key);
        WaitingIsPinned(s, c);
      }
    }
  }

  lemma EndStaged(s: State, p: nat)
    requires s.commit.Off? && Enabled(s, End(p))
    ensures Staged(Do(s, End(p))) && Copied(Do(s, End(p)))
  {
  }

  lemma KeepLogWrite(s: State, p: nat, b: nat)
    requires Inv(s) && Enabled(s, LogWrite(p, b))
    ensures Inv(Do(s, LogWrite(p, b)))
  {
    hide Unique, Counted, Listed, Pinned, Staged, Copied;
    if s.bufs[b].key !in s.lh {
      var s' := Do(s, LogWrite(p, b));
      OpMeansOff(s, p);
      UniqueSame(s, s');
      LogWriteCounted(s, p, b);
      LogWritePinned(s, p, b);
      assert Staged(s') && Copied(s') by {
        OffStaged(s');
      }
      forall c | 0 <= c < |s'.bufs| && Dirty(s', c) ensures Dirty(s, c) {
      }
    }
  }

  lemma OffStaged(s: State)
    requires s.commit.Off?
    ensures Staged(s) && Copied(s)
  {
  }

  lemma LogWriteCounted(s: State, p: nat, b: nat)
    requires Counted(s) && Pinned(s) && s.commit.Off? && Enabled(s, LogWrite(p, b)) && s.bufs[b].key !in s.lh
    ensures Counted(Do(s, LogWrite(p, b)))
  {
    var s' := Do(s, LogWrite(p, b));
    UsersSame(s, s');
    assert b !in s.pins;
  }

  lemma LogWritePinned(s: State, p: nat, b: nat)
    requires Pinned(s) && Listed(s) && s.commit.Off? && Enabled(s, LogWrite(p, b)) && s.bufs[b].key !in s.lh
    ensures Pinned(Do(s, LogWrite(p, b))) && Listed(Do(s, LogWrite(p, b)))
  {
    var s' := Do(s, LogWrite(p, b));
    assert s'.lh[|s.lh|] == s.bufs[b].key;
    forall k ensures Waiting(s', k) <==> Waiting(s, k) || k == s.bufs[b].key {
      if Waiting(s, k) {
        var i :| First(s) <= i < |s.lh| && s.lh[i] == k;
        assert s'.lh[i] == k;
      }
    }
    hide Waiting;
    forall k | Waiting(s', k) ensures exists c: nat :: PinnedKey(s', k, c) {
      if k == s.bufs[b].key {
        assert PinnedKey(s', k, b);
      } else {
        var c: nat :| PinnedKey(s, k, c);
        assert PinnedKey(s', k, c);
      }
    }
  }

  // ----- the committer's stores -----

  predicate StoreEvent(e: Event)
  {
    e.CopyLog? || e.HeadFill? || e.Install?
  }

  // The buffer it stores into.
  function Target(e: Event): nat
    requires StoreEvent(e)
  {
    match e
    case CopyLog(dst, _) => dst
    case HeadFill(b) => b
    case Install(_, dbuf) => dbuf
  }

  // A store changes the contents of one buffer, which becomes the committer's.
  ghost predicate Stored(s: State, s': State, b: nat)
  {
    && s.commit.On? && Busy(s.commit).None? && Holds(s, s.commit.p, b) && s'.commit.On? && Busy(s'.commit) == Some(b)
    && |s'.bufs| == |s.bufs| && s'.bufs[b] == s.bufs[b].(data := s'.bufs[b].data) && s'.bufs == s.bufs[b := s'.bufs[b]]
    && s'.log == s.log && s'.disk == s.disk && s'.refs == s.refs && s'.ops == s.ops && s'.lh == s.lh
    && s'.pins == s.pins
    && First(s') == First(s) && Done(s') == Done(s)
  }

  lemma StoreIs(s: State, e: Event)
    requires Enabled(s, e) && StoreEvent(e)
    ensures Stored(s, Do(s, e), Target(e))
  {
  }

  lemma StoreStaged(s: State, e: Event)
    requires Staged(s) && Enabled(s, e) && StoreEvent(e)
    ensures Staged(Do(s, e))
  {
  }

  lemma StoreKept(s: State, s': State, b: nat)
    requires Unique(s) && Counted(s) && Listed(s) && Pinned(s) && Coherent(s) && Stored(s, s', b)
    ensures Unique(s') && Counted(s') && Listed(s') && Pinned(s') && Coherent(s')
  {
    CountedParts(s);
    hide Unique, Counted, Listed, Pinned;
    UniqueSame(s, s');
    CountedSame(s, s');
    ListedSame(s, s');
    PinnedSame(s, s');
    forall c | 0 <= c < |s'.bufs| && Dirty(s', c) && c != b ensures Dirty(s, c) {
    }
  }

  // The log's own blocks are never pinned.
  lemma LogNotPinned(s: State, b: nat)
    requires Listed(s) && Pinned(s) && b < |s.bufs| && !HomeKey(s, s.bufs[b].key)
    ensures b !in s.pins
  {
    forall k | Waiting(s, k) ensures HomeKey(s, k) {
    }
  }

  lemma OnePinned(s: State, b: nat, c: nat)
    requires Unique(s) && b < |s.bufs| && s.bufs[b].key.dev != 0 && PinnedKey(s, s.bufs[b].key, c)
    ensures c == b
  {
  }

  // The pinned contents are as they were, so the copies made so far still are copies.
  lemma StoreCopied(s: State, s': State, b: nat)
    requires Copied(s) && Stored(s, s', b) && (b in s.pins && Done(s) > 0 ==> s'.bufs == s.bufs)
    requires !s'.commit.at.CopyWrite?
    ensures Copied(s')
  {
    forall i, c: nat | 0 <= i < Done(s') && i < |s'.lh| && PinnedKey(s', s'.lh[i], c)
      ensures SlotHas(s', i, s'.bufs[c].data)
    {
      assert PinnedKey(s, s.lh[i], c);
      assert SlotHas(s, i, s.bufs[c].data);
    }
  }

  lemma CopyLogCopied(s: State, dst: nat, src: nat)
    requires Inv(s) && Enabled(s, CopyLog(dst, src))
    ensures Copied(Do(s, CopyLog(dst, src)))
  {
    hide Staged, Coherent, Pinned, Unique, Listed;
    var s', t := Do(s, CopyLog(dst, src)), s.commit.at.t;
    assert !HomeKey(s, SlotKey(s, t)) by {
      SlotInLog(s, t);
    }
    LogNotPinned(s, dst);
    CountedParts(s);
    hide Counted;
    forall i, c: nat | 0 <= i < Done(s') && i < |s'.lh| && PinnedKey(s', s'.lh[i], c)
      ensures SlotHas(s', i, s'.bufs[c].data)
    {
      assert PinnedKey(s, s.lh[i], c);
      assert SlotHas(s, i, s.bufs[c].data);
    }
    forall c: nat | PinnedKey(s', s'.lh[t], c) ensures s'.bufs[dst].data == s'.bufs[c].data {
      assert PinnedKey(s, s.lh[t], c);
      OnePinned(s, src, c);
    }
  }

  lemma SlotInLog(s: State, t: nat)
    requires Listed(s) && t < |s.lh|
    ensures !HomeKey(s, SlotKey(s, t)) && !HomeKey(s, HeadKey(s))
  {
  }

  // install_trans's memmove changes nothing during a commit: the log slot holds what the cache holds.
  lemma InstallQuiet(s: State, lbuf: nat, dbuf: nat)
    requires Inv(s) && Enabled(s, Install(lbuf, dbuf)) && !s.commit.recovering
    ensures dbuf in s.pins && s.bufs[dbuf].data == s.bufs[lbuf].data && !Dirty(s, lbuf)
  {
    hide Pinned, Unique, Listed, Counted;
    var t := s.commit.at.t;
    SlotInLog(s, t);
    LogNotPinned(s, lbuf);
    assert !Dirty(s, lbuf);
    CountedParts(s);
    assert Waiting(s, s.lh[t]);
    WaitingIsPinned(s, dbuf);
    assert PinnedKey(s, s.lh[t], dbuf);
    assert SlotHas(s, t, s.bufs[dbuf].data);
  }

  lemma KeepStore(s: State, e: Event)
    requires Inv(s) && Enabled(s, e) && StoreEvent(e)
    ensures Inv(Do(s, e))
  {
    hide Unique, Counted, Listed, Pinned, Staged, Coherent, Copied, Do;
    StoreIs(s, e);
    StoreStaged(s, e);
    StoreKept(s, Do(s, e), Target(e));
    match e
    case CopyLog(dst, src) => CopyLogCopied(s, dst, src);
    case HeadFill(b) => HeadCopied(s, b);
    case Install(lbuf, dbuf) => InstallCopied(s, lbuf, dbuf);
  }

  lemma HeadCopied(s: State, b: nat)
    requires Inv(s) && Enabled(s, HeadFill(b))
    ensures Copied(Do(s, HeadFill(b)))
  {
    hide Unique, Counted, Pinned, Staged, Coherent, Copied;
    StoreIs(s, HeadFill(b));
    if Done(s) > 0 {
      LogNotPinned(s, b);
    }
    StoreCopied(s, Do(s, HeadFill(b)), b);
  }

  lemma InstallCopied(s: State, lbuf: nat, dbuf: nat)
    requires Inv(s) && Enabled(s, Install(lbuf, dbuf))
    ensures Copied(Do(s, Install(lbuf, dbuf)))
  {
    hide Unique, Counted, Pinned, Staged, Coherent, Copied, Listed;
    StoreIs(s, Install(lbuf, dbuf));
    if !s.commit.recovering {
      InstallQuiet(s, lbuf, dbuf);
    }
    StoreCopied(s, Do(s, Install(lbuf, dbuf)), dbuf);
  }

  // ----- the committer's disk writes -----

  predicate WriteEvent(e: Event)
  {
    e.CopyOut? || e.HeadOut? || e.InstallOut?
  }

  // The committer's buffer reaches the disk.
  ghost predicate Flushed(s: State, s': State, b: nat)
  {
    && Busy(s.commit) == Some(b) && Holds(s, s.commit.p, b) && s'.commit.On?
    && s'.disk == s.disk[s.bufs[b].key := s.bufs[b].data]
    && s'.bufs == s.bufs && s'.log == s.log && s'.refs == s.refs && s'.ops == s.ops && s'.lh == s.lh
    && s'.pins == s.pins
    && First(s') == First(s)
  }

  lemma WriteIs(s: State, e: Event)
    requires Staged(s) && Enabled(s, e) && WriteEvent(e)
    ensures Flushed(s, Do(s, e), s.commit.at.b) && Staged(Do(s, e))
  {
  }

  lemma WriteKept(s: State, s': State, b: nat)
    requires Unique(s) && Counted(s) && Listed(s) && Pinned(s) && Coherent(s) && Flushed(s, s', b)
    ensures Unique(s') && Counted(s') && Listed(s') && Pinned(s') && Coherent(s') && !Dirty(s', b)
  {
    CountedParts(s);
    hide Counted, Listed, Pinned;
    UniqueSame(s, s');
    CountedSame(s, s');
    ListedSame(s, s');
    PinnedSame(s, s');
    forall c | 0 <= c < |s'.bufs| && Dirty(s', c) ensures Dirty(s, c) && c != b {
      assert c != b ==> s.bufs[c].key != s.bufs[b].key;
    }
  }

  lemma WriteCopied(s: State, e: Event)
    requires Copied(s) && Listed(s) && Staged(s) && Enabled(s, e) && WriteEvent(e)
    ensures Copied(Do(s, e))
  {
    hide Staged;
    WriteIs(s, e);
    var s', b := Do(s, e), s.commit.at.b;
    WriteElsewhere(s, e);
    forall i, c: nat | 0 <= i < Done(s') && i < |s'.lh| && PinnedKey(s', s'.lh[i], c)
      ensures SlotHas(s', i, s'.bufs[c].data)
    {
      assert PinnedKey(s, s.lh[i], c);
      assert i < Done(s) ==> SlotHas(s, i, s.bufs[c].data);
    }
  }

  // Only CopyOut writes to a log slot, and to its own.
  lemma WriteElsewhere(s: State, e: Event)
    requires Listed(s) && Staged(s) && Enabled(s, e) && WriteEvent(e)
    ensures s.commit.at.b < |s.bufs|
    ensures forall i: nat :: i < |s.lh| && !(e.CopyOut? && i == s.commit.at.t) ==>
      SlotKey(s, i) != s.bufs[s.commit.at.b].key
    ensures e.CopyOut? ==> s.bufs[s.commit.at.b].key == SlotKey(s, s.commit.at.t)
  {
    forall i: nat | i < |s.lh| ensures !HomeKey(s, SlotKey(s, i)) {
      SlotInLog(s, i);
    }
  }

  lemma KeepWrite(s: State, e: Event)
    requires Inv(s) && Enabled(s, e) && WriteEvent(e)
    ensures Inv(Do(s, e))
  {
    hide Unique, Counted, Listed, Pinned, Staged, Coherent, Copied, Do;
    WriteIs(s, e);
    WriteKept(s, Do(s, e), s.commit.at.b);
    WriteCopied(s, e);
  }

  // ----- unpinning and the end of the commit -----

  // The buffer to unpin is pinned, and it is on the disk.
  lemma UnpinReady(s: State)
    requires Unique(s) && Counted(s) && Pinned(s) && Staged(s) && Enabled(s, Unpin)
    ensures s.commit.at.b in s.pins && !Dirty(s, s.commit.at.b) && s.bufs[s.commit.at.b].key == s.lh[s.commit.at.t]
    ensures s.bufs[s.commit.at.b].key.dev != 0 && First(s) == s.commit.at.t < |s.lh|
  {
    CountedParts(s);
    hide Unique, Counted, Pinned;
    assert Waiting(s, s.lh[s.commit.at.t]);
    WaitingIsPinned(s, s.commit.at.b);
  }

  lemma UnpinWaiting(s: State, s': State, k: Key)
    requires Listed(s) && s'.lh == s.lh && First(s) < |s.lh| && First(s') == First(s) + 1
    ensures Waiting(s', k) <==> Waiting(s, k) && k != s.lh[First(s)]
  {
  }

  lemma KeepUnpin(s: State)
    requires Inv(s) && Enabled(s, Unpin)
    ensures Inv(Do(s, Unpin))
  {
    hide Unique, Counted, Listed, Pinned, Copied, Waiting;
    UnpinReady(s);
    var s', b := Do(s, Unpin), s.commit.at.b;
    UniqueSame(s, s');
    ListedSame(s, s');
    UnpinCounted(s);
    UnpinPinned(s);
    UnpinCopied(s);
    forall c | 0 <= c < |s'.bufs| && Dirty(s', c) ensures Dirty(s, c) && c != b {
    }
  }

  lemma UnpinCounted(s: State)
    requires Counted(s) && Enabled(s, Unpin) && s.commit.at.b in s.pins
    ensures Counted(Do(s, Unpin))
  {
    UsersSame(s, Do(s, Unpin));
  }

  lemma UnpinPinned(s: State)
    requires Unique(s) && Listed(s) && Pinned(s) && Counted(s) && Staged(s) && Enabled(s, Unpin)
    ensures Pinned(Do(s, Unpin))
  {
    hide Counted, Staged, Waiting;
    UnpinReady(s);
    var s', b := Do(s, Unpin), s.commit.at.b;
    assert First(s') == First(s) + 1 by {
      UnpinNext(s);
    }
    forall k ensures Waiting(s', k) <==> Waiting(s, k) && k != s.lh[First(s)] {
      UnpinWaiting(s, s', k);
    }
    forall k | Waiting(s', k) ensures exists c: nat :: PinnedKey(s', k, c) {
      var c: nat :| PinnedKey(s, k, c);
      assert PinnedKey(s', k, c);
    }
  }

  lemma UnpinNext(s: State)
    requires Staged(s) && Enabled(s, Unpin)
    ensures First(Do(s, Unpin)) == First(s) + 1 && Staged(Do(s, Unpin))
  {
  }

  lemma UnpinCopied(s: State)
    requires Copied(s) && Enabled(s, Unpin)
    ensures Copied(Do(s, Unpin))
  {
    var s' := Do(s, Unpin);
    forall i, c: nat | 0 <= i < Done(s') && i < |s'.lh| && PinnedKey(s', s'.lh[i], c)
      ensures SlotHas(s', i, s'.bufs[c].data)
    {
      assert PinnedKey(s, s.lh[i], c);
      assert SlotHas(s, i, s.bufs[c].data);
    }
  }

  // Once the loop of install_trans is over, nothing is pinned.
  lemma NonePinned(s: State)
    requires Pinned(s) && First(s) >= |s.lh|
    ensures s.pins == {}
  {
    forall k ensures !Waiting(s, k) {
    }
  }

  lemma NothingWaits(s: State)
    requires s.lh == [] && s.pins == {}
    ensures Pinned(s) && Copied(s) && (s.log.dev != 0 && s.log.size > 0 ==> Listed(s))
  {
  }

  lemma KeepFinish(s: State, e: Event)
    requires Inv(s) && Enabled(s, e) && (e.ClearLog? || e.CommitEnd?)
    ensures Inv(Do(s, e)) && s.pins == {}
  {
    hide Unique, Counted, Pinned, Copied, Waiting;
    NonePinned(s);
    CountedParts(s);
    var s' := Do(s, e);
    UniqueSame(s, s');
    CountedSame(s, s');
    NothingWaits(s');
    forall c | 0 <= c < |s'.bufs| && Dirty(s', c) ensures Dirty(s, c) {
    }
  }

  lemma StepKeeps(s: State, e: Event)
    requires Inv(s) && Enabled(s, e)
    ensures Inv(Do(s, e))
  {
    hide Inv;
    match e
    case Get(p, b, key) => KeepGet(s, p, b, key);
    case Unref(p, b) => KeepUnref(s, p, b);
    case Begin(p) => KeepBegin(s, p);
    case LogWrite(p, b) => KeepLogWrite(s, p, b);
    case End(p) => KeepEnd(s, p);
    case CopyLog(_, _) => KeepStore(s, e);
    case HeadFill(_) => KeepStore(s, e);
    case Install(_, _) => KeepStore(s, e);
    case CopyOut => KeepWrite(s, e);
    case HeadOut => KeepWrite(s, e);
    case InstallOut => KeepWrite(s, e);
    case Unpin => KeepUnpin(s);
    case ClearLog => KeepFinish(s, e);
    case CommitEnd => KeepFinish(s, e);
    case _ => KeepHolder(s, e);
  }

  // ----- every run -----

  // After binit and read_head: no buffer is in use, and the first process is about to install
  // the blocks that the header on disk lists.
  ghost predicate Boot(s: State)
  {
    && (forall b :: 0 <= b < |s.bufs| ==>
          s.bufs[b].key == Key(0, 0) && !s.bufs[b].valid && s.bufs[b].refcnt == 0 && s.bufs[b].locked.None?)
    && s.refs == {} && s.ops == {} && s.pins == {} && Listed(s) && s.commit.On? && s.commit.recovering
    && s.commit.at == InstNext(0)
  }

  ghost predicate IsRun(run: seq<State>, es: seq<Event>)
  {
    && |run| == |es| + 1 && Boot(run[0])
    && (forall i :: 0 <= i < |es| ==> Enabled(run[i], es[i]) && run[i + 1] == Do(run[i], es[i]))
  }

  lemma BootInv(s: State)
    requires Boot(s)
    ensures Inv(s)
  {
    forall b | 0 <= b < |s.bufs| ensures Users(s, b) == {} {
    }
  }

  lemma {:induction false} RunInv(run: seq<State>, es: seq<Event>, k: nat)
    requires IsRun(run, es) && k < |run|
    ensures Inv(run[k])
  {
    hide Inv, Boot, Enabled, Do;
    if k == 0 {
      BootInv(run[0]);
    } else {
      RunInv(run, es, k - 1);
      StepKeeps(run[k - 1], es[k - 1]);
    }
  }

  // In every run: one buffer per block, and a valid buffer equals the disk unless it is
  // locked, or pinned with its block in the log header.
  lemma CacheIsCoherent(run: seq<State>, es: seq<Event>, k: nat, b: nat)
    requires IsRun(run, es) && k < |run| && b < |run[k].bufs| && run[k].bufs[b].valid
    requires run[k].bufs[b].locked.None? && !(b in run[k].pins && run[k].bufs[b].key in run[k].lh)
    ensures run[k].bufs[b].key in run[k].disk && run[k].bufs[b].data == run[k].disk[run[k].bufs[b].key]
    ensures forall a :: 0 <= a < |run[k].bufs| && a != b ==> run[k].bufs[a].key != run[k].bufs[b].key
  {
    hide IsRun, Copied;
    RunInv(run, es, k);
    var s := run[k];
    if Busy(s.commit) == Some(b) {
      BusyLocked(s, b);
    }
    forall c | c in s.pins ensures c < |s.bufs| && s.bufs[c].key in s.lh {
    }
    assert !Dirty(s, b);
  }

  // Between operations the log is empty: the last one to end commits, and a commit ends by emptying it.
  predicate EmptyWhenQuiet(s: State)
  {
    s.commit.Off? && s.ops == {} ==> s.lh == []
  }

  lemma QuietStep(s: State, e: Event)
    requires Inv(s) && Enabled(s, e) && EmptyWhenQuiet(s)
    ensures EmptyWhenQuiet(Do(s, e))
  {
    hide Unique, Counted, Listed, Pinned, Coherent, Copied;
    if e.Begin? {
      assert e.p in Do(s, e).ops;
    }
  }

  lemma {:induction false} QuietIsEmpty(run: seq<State>, es: seq<Event>, k: nat)
    requires IsRun(run, es) && k < |run|
    ensures EmptyWhenQuiet(run[k])
  {
    hide Inv, Do, Enabled;
    if k > 0 {
      QuietIsEmpty(run, es, k - 1);
      RunInv(run, es, k - 1);
      QuietStep(run[k - 1], es[k - 1]);
    }
  }

  // With no operation active and no commit running, the log is empty, nothing is pinned and
  // everything cached is on the disk.
  lemma QuietIsClean(run: seq<State>, es: seq<Event>, k: nat, b: nat)
    requires IsRun(run, es) && k < |run| && run[k].commit.Off? && run[k].ops == {}
    ensures run[k].lh == [] && run[k].pins == {} && !Dirty(run[k], b)
  {
    hide IsRun, Copied;
    RunInv(run, es, k);
    QuietIsEmpty(run, es, k);
    NonePinned(run[k]);
  }

  // A commit starts with every difference between cache and disk in the log and pinned;
  // install_trans's memmove leaves the cache as it is, and what it unpins is pinned and on
  // the disk; the header is cleared with nothing pinned.
  lemma CommitIsSound(run: seq<State>, es: seq<Event>, k: nat)
    requires IsRun(run, es) && k < |es|
    ensures es[k].End? && run[k + 1].commit.On? ==>
      forall b :: 0 <= b < |run[k].bufs| && Dirty(run[k], b) ==> b in run[k].pins && run[k].bufs[b].key in run[k].lh
    ensures es[k].Install? && !run[k].commit.recovering ==> run[k + 1].bufs == run[k].bufs
    ensures es[k].Unpin? ==> run[k].commit.at.b in run[k].pins && !Dirty(run[k], run[k].commit.at.b)
    ensures es[k].ClearLog? ==> run[k].pins == {}
  {
    hide Copied, Boot;
    var s, e := run[k], es[k];
    RunInv(run, es, k);
    assert Enabled(s, e) && run[k + 1] == Do(s, e);
    hide IsRun;
    match e
    case End(p) =>
      StepKeeps(s, e);
      EndClean(s, p);
    case Install(lbuf, dbuf) =>
      if !s.commit.recovering {
        InstallQuiet(s, lbuf, dbuf);
      }
    case Unpin => UnpinReady(s);
    case ClearLog => KeepFinish(s, e);
    case _ =>
  }

  lemma EndClean(s: State, p: nat)
    requires Inv(s) && Enabled(s, End(p)) && Inv(Do(s, End(p)))
    ensures Do(s, End(p)).commit.On? ==> forall b :: 0 <= b < |s.bufs| && Dirty(s, b) ==>
      b in s.pins && s.bufs[b].key in s.lh
  {
    hide Unique, Counted, Copied, Listed;
    OpMeansOff(s, p);
    var s' := Do(s, End(p));
    forall b | 0 <= b < |s.bufs| && Dirty(s, b) && s'.commit.On? ensures b in s.pins && s.bufs[b].key in s.lh {
      assert Dirty(s', b);
      assert Waiting(s, s.bufs[b].key);
    }
  }

  // A buffer that somebody refers to, or that is pinned, keeps its block.
  lemma NotRecycled(run: seq<State>, es: seq<Event>, k: nat, b: nat)
    requires IsRun(run, es) && k < |es| && b < |run[k].bufs|
    requires (exists p :: Ref(p, b) in run[k].refs) || b in run[k].pins || run[k].bufs[b].refcnt > 0
    ensures b < |run[k + 1].bufs| && run[k + 1].bufs[b].key == run[k].bufs[b].key
  {
    hide Inv, Boot, Enabled, Do;
    RunInv(run, es, k);
    InUse(run[k], b);
    KeyKept(run[k], es[k], b);
  }

  lemma KeyKept(s: State, e: Event, b: nat)
    requires Enabled(s, e) && b < |s.bufs| && s.bufs[b].refcnt > 0
    ensures b < |Do(s, e).bufs| && Do(s, e).bufs[b].key == s.bufs[b].key
  {
  }

  lemma InUse(s: State, b: nat)
    requires Inv(s) && b < |s.bufs| && ((exists p :: Ref(p, b) in s.refs) || b in s.pins || s.bufs[b].refcnt > 0)
    ensures s.bufs[b].refcnt > 0
  {
    if p :| Ref(p, b) in s.refs {
      assert Ref(p, b) in Users(s, b);
    }
  }
}
