/**
  The buffer cache, the disk and the log together: processes look blocks up,
  lock, fill, change, log and release buffers inside operations, in any
  interleaving, and the process that ends the last operation commits, step by
  step through write_log, write_head and install_trans, with the same buffers.
  Steps are the regions between lock operations.
 */
module CacheModel {
  import opened Optional

  type Data = seq<int>

  datatype Key = Key(dev: nat, blockno: nat)

  datatype Buf = Buf(key: Key, valid: bool, refcnt: int, data: Data, locked: Option<nat>)

  // Process p has a reference to buffer b: between bget and the end of brelse.
  datatype Ref = Ref(p: nat, b: nat)

  // log.dev, log.start and log.size.
  datatype Layout = Layout(dev: nat, start: nat, size: nat)

  // Where the committing process is.  Bread and brelse are steps of their own, as for everybody.
  datatype Stage =
    | CopyNext(t: nat)             // write_log, before the memmove of block t
    | CopyWrite(t: nat, b: nat)    // ... into buffer b, before its bwrite
    | HeadWrite(b: nat)            // write_head, before the bwrite
    | InstNext(t: nat)             // install_trans, before the memmove of block t
    | InstWrite(t: nat, b: nat)    // ... into buffer b, before its bwrite
    | InstUnpin(t: nat, b: nat)    // before bunpin
    | EraseNext                    // log.lh.n is 0
    | EraseWrite(b: nat)
    | Last

  datatype Commit = Off | On(p: nat, recovering: bool, at: Stage)

  datatype State = State(
    log: Layout,
    bufs: seq<Buf>,
    disk: map<Key, Data>,
    refs: set<Ref>,
    ops: set<nat>,                 // the processes inside an operation: log.outstanding of them
    lh: seq<Key>,                  // log.lh.block
    pins: set<nat>,                // buffers pinned by log_write
    commit: Commit)                // log.committing, and the position of the committer

  datatype Event =
    | Get(p: nat, b: nat, key: Key)
    | Lock(p: nat, b: nat)
    | Fill(p: nat, b: nat)
    | Unlock(p: nat, b: nat)
    | Unref(p: nat, b: nat)
    | Begin(p: nat)
    | Modify(p: nat, b: nat, d: Data)
    | LogWrite(p: nat, b: nat)
    | End(p: nat)
    | CopyLog(dst: nat, src: nat)
    | CopyOut
    | HeadFill(b: nat)
    | HeadOut
    | Install(lbuf: nat, dbuf: nat)
    | InstallOut
    | Unpin
    | ClearLog
    | CommitEnd

  // ----- the log on disk -----

  function SlotKey(s: State, t: nat): Key { Key(s.log.dev, s.log.start + t + 1) }

  function HeadKey(s: State): Key { Key(s.log.dev, s.log.start) }

  // A block of the file system proper, on the device of the log.
  predicate HomeKey(s: State, k: Key)
  {
    k.dev == s.log.dev && !(s.log.start <= k.blockno < s.log.start + s.log.size)
  }

  // ----- steps -----

  // Process p holds the sleep lock of buffer b, and the buffer is filled.
  predicate Holds(s: State, p: nat, b: nat)
  {
    b < |s.bufs| && s.bufs[b].locked == Some(p) && s.bufs[b].valid
  }

  predicate HoldsKey(s: State, p: nat, b: nat, k: Key)
  {
    Holds(s, p, b) && s.bufs[b].key == k
  }

  predicate Dirty(s: State, b: nat)
  {
    b < |s.bufs| && s.bufs[b].valid && s.bufs[b].key in s.disk && s.bufs[b].data != s.disk[s.bufs[b].key]
  }

  // bget returns b: the block's buffer if there is one, else an unreferenced one.
  predicate Gets(s: State, b: nat, key: Key)
  {
    b < |s.bufs| && (s.bufs[b].key == key || (s.bufs[b].refcnt == 0 && forall c :: 0 <= c < |s.bufs| ==>
      s.bufs[c].key != key))
  }

  // The buffer that the committer has changed, or written, and not yet let go of.
  function Busy(c: Commit): Option<nat>
  {
    match c
    case Off => None
    case On(_, _, at) =>
      match at
      case CopyWrite(_, b) => Some(b)
      case HeadWrite(b) => Some(b)
      case InstWrite(_, b) => Some(b)
      case InstUnpin(_, b) => Some(b)
      case EraseWrite(b) => Some(b)
      case _ => None
  }

  // What log_write's clients keep to: a buffer is changed only inside an operation, and it is
  // in the log before the lock is released and before the operation ends.
  predicate Enabled(s: State, e: Event)
  {
    match e
    case Get(p, b, key) => Gets(s, b, key) && key.dev != 0 && Ref(p, b) !in s.refs
    case Lock(p, b) => b < |s.bufs| && Ref(p, b) in s.refs && s.bufs[b].locked.None?
    case Fill(p, b) => b < |s.bufs| && s.bufs[b].locked == Some(p) && !s.bufs[b].valid && s.bufs[b].key in s.disk
    case Unlock(p, b) =>
      b < |s.bufs| && s.bufs[b].locked == Some(p) && Busy(s.commit) != Some(b) && (p in s.ops && Dirty(s, b) ==>
        s.bufs[b].key in s.lh)
    case Unref(p, b) => b < |s.bufs| && Ref(p, b) in s.refs && s.bufs[b].locked != Some(p)
    case Begin(p) => s.commit.Off? && p !in s.ops
    case Modify(p, b, d) => Holds(s, p, b) && p in s.ops
    case LogWrite(p, b) => Holds(s, p, b) && p in s.ops && HomeKey(s, s.bufs[b].key) && |s.lh| < s.log.size - 1
    case End(p) =>
      p in s.ops && forall b :: 0 <= b < |s.bufs| && s.bufs[b].locked == Some(p) && Dirty(s, b) ==>
        s.bufs[b].key in s.lh
    case CopyLog(dst, src) =>
      && s.commit.On? && s.commit.at.CopyNext? && s.commit.at.t < |s.lh|
      && HoldsKey(s, s.commit.p, dst, SlotKey(s, s.commit.at.t)) && HoldsKey(s, s.commit.p, src, s.lh[s.commit.at.t])
    case CopyOut => s.commit.On? && s.commit.at.CopyWrite? && s.commit.at.b < |s.bufs|
    case HeadFill(b) =>
      && s.commit.On? && HoldsKey(s, s.commit.p, b, HeadKey(s))
      && (s.commit.at.EraseNext? || (s.commit.at.CopyNext? && s.commit.at.t == |s.lh| > 0))
    case HeadOut => s.commit.On? && (s.commit.at.HeadWrite? || s.commit.at.EraseWrite?) && s.commit.at.b < |s.bufs|
    case Install(lbuf, dbuf) =>
      && s.commit.On? && s.commit.at.InstNext? && s.commit.at.t < |s.lh|
      && HoldsKey(s, s.commit.p, lbuf, SlotKey(s, s.commit.at.t)) && HoldsKey(s, s.commit.p, dbuf, s.lh[s.commit.at.t])
    case InstallOut => s.commit.On? && s.commit.at.InstWrite? && s.commit.at.b < |s.bufs|
    case Unpin => s.commit.On? && s.commit.at.InstUnpin? && s.commit.at.b < |s.bufs|
    case ClearLog => s.commit.On? && s.commit.at.InstNext? && s.commit.at.t == |s.lh|
    case CommitEnd => s.commit.On? && (s.commit.at.Last? || (s.commit.at.CopyNext? && s.lh == []))
  }

  function Put(s: State, b: nat, x: Buf): State
    requires b < |s.bufs|
  {
    s.(bufs := s.bufs[b := x])
  }

  function Move(s: State, at: Stage): State
    requires s.commit.On?
  {
    s.(commit := s.commit.(at := at))
  }

  // bwrite
  function Write(s: State, b: nat): State
    requires b < |s.bufs|
  {
    s.(disk := s.disk[s.bufs[b].key := s.bufs[b].data])
  }

  // What write_head stores: the count, the block numbers, and what was there.
  function Header(lh: seq<Key>, d: Data): Data
  {
    [|lh|] + seq(|lh|, i requires 0 <= i < |lh| => lh[i].blockno) + if |lh| < |d| then d[|lh| + 1..] else []
  }

  function Do(s: State, e: Event): State
    requires Enabled(s, e)
  {
    match e
    case Get(p, b, key) =>
      var x := s.bufs[b];
      Put(s.(refs := s.refs + {Ref(p, b)}), b, if x.key == key then x.(refcnt := x.refcnt + 1)
        else x.(key := key, valid := false, refcnt := 1))
    case Lock(p, b) => Put(s, b, s.bufs[b].(locked := Some(p)))
    case Fill(p, b) => Put(s, b, s.bufs[b].(valid := true, data := s.disk[s.bufs[b].key]))
    case Unlock(p, b) => Put(s, b, s.bufs[b].(locked := None))
    case Unref(p, b) => Put(s.(refs := s.refs - {Ref(p, b)}), b, s.bufs[b].(refcnt := s.bufs[b].refcnt - 1))
    case Begin(p) => s.(ops := s.ops + {p})
    case Modify(p, b, d) => Put(s, b, s.bufs[b].(data := d))
    case LogWrite(p, b) =>
      if s.bufs[b].key in s.lh then s
      else Put(s.(lh := s.lh + [s.bufs[b].key], pins := s.pins + {b}), b, s.bufs[b].(refcnt := s.bufs[b].refcnt + 1))
    case End(p) =>
      var s' := s.(ops := s.ops - {p});
      if s'.ops == {} then s'.(commit := On(p, false, CopyNext(0))) else s'
    case CopyLog(dst, src) => Move(Put(s, dst, s.bufs[dst].(data := s.bufs[src].data)), CopyWrite(s.commit.at.t, dst))
    case CopyOut => Move(Write(s, s.commit.at.b), CopyNext(s.commit.at.t + 1))
    case HeadFill(b) =>
      Move(Put(s, b, s.bufs[b].(data := Header(s.lh, s.bufs[b].data))), if s.commit.at.EraseNext? then EraseWrite(b)
        else HeadWrite(b))
    case HeadOut => Move(Write(s, s.commit.at.b), if s.commit.at.EraseWrite? then Last else InstNext(0))
    case Install(lbuf, dbuf) => Move(Put(s, dbuf, s.bufs[dbuf].(data := s.bufs[lbuf].data)),
      InstWrite(s.commit.at.t, dbuf))
    case InstallOut =>
      var at := s.commit.at;
      Move(Write(s, at.b), if s.commit.recovering then InstNext(at.t + 1) else InstUnpin(at.t, at.b))
    case Unpin =>
      var at := s.commit.at;
      Move(Put(s.(pins := s.pins - {at.b}), at.b, s.bufs[at.b].(refcnt := s.bufs[at.b].refcnt - 1)), InstNext(at.t + 1))
    case ClearLog => Move(s.(lh := []), EraseNext)
    case CommitEnd => s.(commit := Off)
  }

  // ----- the invariant -----

  function Users(s: State, b: nat): set<Ref>
  {
    set r | r in s.refs && r.b == b
  }

  // A block has at most one buffer.
  ghost predicate Unique(s: State)
  {
    forall a, b :: 0 <= a < b < |s.bufs| && s.bufs[a].key.dev != 0 ==> s.bufs[a].key != s.bufs[b].key
  }

  // refcnt counts the references, plus one for a pin.
  ghost predicate Counted(s: State)
  {
    && (forall b :: 0 <= b < |s.bufs| ==> s.bufs[b].refcnt == |Users(s, b)| + if b in s.pins then 1 else 0)
    && (forall r :: r in s.refs ==> r.b < |s.bufs| && s.bufs[r.b].key.dev != 0)
    && (forall b :: 0 <= b < |s.bufs| && s.bufs[b].locked.Some? ==> Ref(s.bufs[b].locked.value, b) in s.refs)
    && (forall b :: 0 <= b < |s.bufs| && s.bufs[b].valid ==> s.bufs[b].key.dev != 0 && s.bufs[b].key in s.disk)
  }

  // The log header lists different home blocks, no more than there are log slots.
  ghost predicate Listed(s: State)
  {
    && s.log.dev != 0 && |s.lh| < s.log.size
    && (forall i :: 0 <= i < |s.lh| ==> HomeKey(s, s.lh[i]))
    && (forall i, j :: 0 <= i < j < |s.lh| ==> s.lh[i] != s.lh[j])
  }

  // The logged blocks before this one have been unpinned.
  function First(s: State): nat
  {
    if s.commit.Off? then 0
    else if s.commit.recovering then |s.lh|
    else match s.commit.at
      case InstNext(t) => t
      case InstWrite(t, _) => t
      case InstUnpin(t, _) => t
      case _ => 0
  }

  // Block k is logged and not yet installed.
  ghost predicate Waiting(s: State, k: Key)
  {
    exists i :: First(s) <= i < |s.lh| && s.lh[i] == k
  }

  predicate PinnedKey(s: State, k: Key, b: nat)
  {
    b < |s.bufs| && b in s.pins && s.bufs[b].key == k
  }

  // The pinned buffers are those of the blocks that wait for installation.
  ghost predicate Pinned(s: State)
  {
    && (forall k :: Waiting(s, k) ==> exists b: nat :: PinnedKey(s, k, b))
    && (forall b :: b in s.pins ==> b < |s.bufs| && s.bufs[b].valid && Waiting(s, s.bufs[b].key))
  }

  // What the committer's position says.
  ghost predicate Staged(s: State)
  {
    s.commit.On? ==>
      && s.ops == {}
      && var p, rec := s.commit.p, s.commit.recovering;
      match s.commit.at
      case CopyNext(t) => !rec && t <= |s.lh|
      case CopyWrite(t, b) => !rec && t < |s.lh| && HoldsKey(s, p, b, SlotKey(s, t))
      case HeadWrite(b) => !rec && s.lh != [] && HoldsKey(s, p, b, HeadKey(s))
      case InstNext(t) => t <= |s.lh|
      case InstWrite(t, b) => t < |s.lh| && HoldsKey(s, p, b, s.lh[t])
      case InstUnpin(t, b) => !rec && t < |s.lh| && HoldsKey(s, p, b, s.lh[t]) && !Dirty(s, b)
      case EraseNext => s.lh == []
      case EraseWrite(b) => s.lh == [] && HoldsKey(s, p, b, HeadKey(s))
      case Last => s.lh == []
  }

  // A valid buffer differs from the disk only while a process in an operation has it locked,
  // while it is pinned, or while the committer has it between its memmove and its bwrite.
  ghost predicate Coherent(s: State)
  {
    forall b :: 0 <= b < |s.bufs| && Dirty(s, b) ==>
      || (s.bufs[b].locked.Some? && s.bufs[b].locked.value in s.ops)
      || b in s.pins
      || Busy(s.commit) == Some(b)
  }

  // The first log slots hold what the pinned buffers hold.
  function Done(s: State): nat
  {
    if s.commit.Off? || s.commit.recovering then 0
    else match s.commit.at
      case CopyNext(t) => t
      case CopyWrite(t, _) => t
      case _ => |s.lh|
  }

  ghost predicate Copied(s: State)
  {
    && (forall i, b: nat :: 0 <= i < Done(s) && i < |s.lh| && PinnedKey(s, s.lh[i], b) ==>
          SlotHas(s, i, s.bufs[b].data))
    && (s.commit.On? && s.commit.at.CopyWrite? && s.commit.at.t < |s.lh| && s.commit.at.b < |s.bufs| ==>
          forall b: nat :: PinnedKey(s, s.lh[s.commit.at.t], b) ==> s.bufs[s.commit.at.b].data == s.bufs[b].data)
  }

  predicate SlotHas(s: State, i: nat, d: Data)
  {
    SlotKey(s, i) in s.disk && s.disk[SlotKey(s, i)] == d
  }

  ghost predicate Inv(s: State)
  {
    Unique(s) && Counted(s) && Listed(s) && Pinned(s) && Staged(s) && Coherent(s) && Copied(s)
  }
}
