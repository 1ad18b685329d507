/**
  The functions of fs.c and filewrite's chunking as methods.  logged collects
  the blocks passed to log_write by the current operation.
 */
module FsCode {
  import opened Fs
  import Log

  // After copying tot of n bytes at off: how many blocks were touched, and how many of them were new.
  ghost predicate Rounds(off: nat, tot: nat, n: nat, touched: nat, fresh_: nat)
  {
    && fresh_ <= touched && (tot == 0 <==> touched == 0)
    && (tot > 0 ==> (off / BSIZE + touched - 1) * BSIZE < off + tot <= (off / BSIZE + touched) * BSIZE)
    && (0 < tot < n ==> off + tot == (off / BSIZE + touched) * BSIZE)
    && (tot > 0 && off % BSIZE != 0 ==> fresh_ < touched)
  }

  lemma NoRounds(off: nat, n: nat)
    ensures Rounds(off, 0, n, 0, 0)
  {
  }

  // The blocks logged by one round, beyond the indirect block and its bitmap block.
  lemma Account(before: set<nat>, mine: set<nat>, ind: set<nat>, ind': set<nat>, logs: set<nat>, logs': set<nat>,
                addr: nat, bitmap: nat, isNew: bool) returns (mine': set<nat>)
    requires logs <= before + mine + ind && ind <= ind'
    requires if isNew then logs' <= logs + ind' + {addr, bitmap} else logs' <= logs + {addr}
    ensures logs' <= before + mine' + ind' && |mine'| <= |mine| + if isNew then 2 else 1
  {
    mine' := mine + if isNew then {addr, bitmap} else {addr};
    Union(mine, if isNew then {addr, bitmap} else {addr});
  }

  lemma NextRound(off: nat, tot: nat, n: nat, touched: nat, fresh_: nat, m: nat, fresh': nat)
    requires Rounds(off, tot, n, touched, fresh_) && tot < n && fresh_ <= fresh' <= fresh_ + 1
    requires m == if n - tot < BSIZE - (off + tot) % BSIZE then n - tot else BSIZE - (off + tot) % BSIZE
    requires tot == 0 && off % BSIZE != 0 ==> fresh' == fresh_
    ensures m > 0 && Rounds(off, tot + m, n, touched + 1, fresh')
  {
  }

  // Data blocks, a bitmap block for each new one, the indirect block and its bitmap block.
  lemma AtMostNine(off: nat, tot: nat, n: nat, touched: nat, fresh_: nat,
                   before: set<nat>, mine: set<nat>, indirect: set<nat>, after: set<nat>)
    requires Rounds(off, tot, n, touched, fresh_) && tot <= n <= 3 * BSIZE
    requires |mine| <= touched + fresh_ && |indirect| <= 2 && after <= before + mine + indirect
    ensures |after - before| <= 9
  {
    assert touched + fresh_ <= 7;
    Union(mine, indirect);
    assert after - before <= mine + indirect;
    Subset(after - before, mine + indirect);
  }

  lemma Union(a: set<nat>, b: set<nat>)
    ensures |a + b| <= |a| + |b|
  {
    assert a + b == a + (b - a);
    assert |a + (b - a)| == |a| + |b - a|;
    Subset(b - a, b);
  }

  lemma Subset(a: set<nat>, b: set<nat>)
    requires a <= b
    ensures |a| <= |b|
  {
    assert b == a + (b - a);
  }

  // writei has copied x so far.
  ghost predicate Progress(g: Super, s0: State, s: State, i: nat, off: nat, x: seq<Byte>)
  {
    && Struct(g, s0) && Struct(g, s) && i < |s.inodes| && Written(g, s0, s, i, off, x)
    && MappedBut(s, i, Max(s.inodes[i].size, off + |x|))
  }

  lemma StartProgress(g: Super, s: State, i: nat, off: nat)
    requires Valid(g, s) && i < |s.inodes| && off <= s.inodes[i].size
    ensures Progress(g, s, s, i, off, [])
  {
    forall j | 0 <= j < |s.inodes|
      ensures MappedTo(s, j, if j == i then Max(s.inodes[i].size, off) else s.inodes[j].size)
    {
    }
  }

  lemma StopProgress(g: Super, s0: State, s: State, s1: State, i: nat, off: nat, x: seq<Byte>, bn: nat)
    requires Progress(g, s0, s, i, off, x) && Struct(g, s1) && bn < MAXFILE && Mapped(g, s, s1, i, bn, 0)
    ensures Progress(g, s0, s1, i, off, x)
  {
    WriteStop(g, s0, s, s1, i, off, x, bn);
    MappedSame(s, s1, i, Max(s.inodes[i].size, off + |x|));
  }

  lemma MoreProgress(g: Super, s0: State, s: State, s1: State, s2: State, i: nat, off: nat, x: seq<Byte>, y: seq<Byte>,
                     addr: nat)
    requires Progress(g, s0, s, i, off, x) && Struct(g, s1) && 0 < addr < g.size && |y| > 0
    requires var bn, o := (off + |x|) / BSIZE, (off + |x|) % BSIZE;
      && bn < MAXFILE && o + |y| <= BSIZE && Mapped(g, s, s1, i, bn, addr)
      && s2 == s1.(blocks := s1.blocks[addr := Patched(s1.blocks[addr], o, y)])
    ensures Progress(g, s0, s2, i, off, x + y)
  {
    hide Written;
    var bn, at := (off + |x|) / BSIZE, off + |x|;
    var e := Max(s.inodes[i].size, at);
    SizesOf(g, s0, s, i, off, x);
    Fs.WriteRound(g, s0, s, s1, s2, i, off, x, y, addr);
    SizesOf(g, s0, s2, i, off, x + y);
    assert MappedTo(s, i, e) && Slot(s, i, bn);
    if at + |y| <= e {
      MappedSame(s, s2, i, e);
    } else {
      MappedGrows(s, s2, i, e, at + |y|);
    }
  }

  lemma ProgressParts(g: Super, s0: State, s: State, i: nat, off: nat, x: seq<Byte>)
    requires Progress(g, s0, s, i, off, x)
    ensures Struct(g, s) && i < |s.inodes| == |s0.inodes| && s.inodes[i].size == s0.inodes[i].size
  {
  }

  lemma ValidParts(g: Super, s: State, i: nat)
    requires Valid(g, s) && i < |s.inodes|
    ensures Struct(g, s) && s.inodes[i].size <= MAXFILE * BSIZE
  {
  }

  lemma FinishProgress(g: Super, s0: State, s: State, i: nat, off: nat, x: seq<Byte>)
    requires Progress(g, s0, s, i, off, x) && Valid(g, s0) && off <= s0.inodes[i].size && off + |x| <= MAXFILE * BSIZE
    ensures i < |s0.inodes| == |s.inodes| && s.inodes[i].size == s0.inodes[i].size
    ensures var s' := s.(inodes := s.inodes[i := s.inodes[i].(size := Max(s0.inodes[i].size, off + |x|))]);
      && Valid(g, s') && File(s', i) == Spliced(File(s0, i), off, x)
      && forall j :: 0 <= j < |s0.inodes| && j != i ==> s'.inodes[j] == s0.inodes[j] && File(s', j) == File(s0, j)
  {
    hide Written, Disjoint, MappedBut, File, Spliced, Valid;
    SizesOf(g, s0, s, i, off, x);
    WriteEnd(g, s0, s, s.(inodes := s.inodes[i := s.inodes[i].(size := Max(s0.inodes[i].size, off + |x|))]), i, off, x);
  }

  lemma SizesOf(g: Super, s0: State, s: State, i: nat, off: nat, x: seq<Byte>)
    requires Shape(g, s0) && Shape(g, s) && Written(g, s0, s, i, off, x)
    ensures |s.inodes| == |s0.inodes| && forall j :: 0 <= j < |s.inodes| ==> s.inodes[j].size == s0.inodes[j].size
  {
  }

  // An unaligned first block is already mapped.
  lemma FirstIsMapped(g: Super, s0: State, s: State, i: nat, off: nat, x: seq<Byte>)
    requires Progress(g, s0, s, i, off, x) && off <= s.inodes[i].size && off + |x| < MAXFILE * BSIZE
    ensures |x| == 0 && off % BSIZE != 0 ==> Ref(s, i, off / BSIZE) != 0
  {
    assert MappedTo(s, i, Max(s.inodes[i].size, off + |x|));
  }

  lemma AddrInRange(g: Super, s: State, i: nat, bn: nat)
    requires Struct(g, s) && i < |s.inodes| && bn < MAXFILE && Ref(s, i, bn) != 0
    ensures Ref(s, i, bn) < g.size
  {
    assert Slot(s, i, bn);
  }

  // What readi copies out of one block.
  lemma ReadChunk(g: Super, s: State, i: nat, at: nat, m: nat)
    requires Valid(g, s) && i < |s.inodes| && at + m <= s.inodes[i].size && at % BSIZE + m <= BSIZE && m > 0
    ensures Struct(g, s) && at / BSIZE < MAXFILE && 0 < Ref(s, i, at / BSIZE) < |s.blocks|
    ensures |s.blocks[Ref(s, i, at / BSIZE)]| == BSIZE
    ensures s.blocks[Ref(s, i, at / BSIZE)][at % BSIZE..at % BSIZE + m] == File(s, i)[at..at + m]
  {
    assert MappedTo(s, i, s.inodes[i].size);
    assert Slot(s, i, at / BSIZE);
    forall p | at <= p < at + m ensures File(s, i)[p] == s.blocks[Ref(s, i, at / BSIZE)][p - at + at % BSIZE] {
      assert p / BSIZE == at / BSIZE;
    }
  }

  lemma MappedAt(g: Super, s: State, s': State, i: nat, bn: nat, addr: nat)
    requires Shape(g, s) && Shape(g, s') && i < |s.inodes| && bn < MAXFILE && Mapped(g, s, s', i, bn, addr)
    ensures |s'.inodes| == |s.inodes| && Ref(s', i, bn) == addr && (Ref(s, i, bn) != 0 ==> addr == Ref(s, i, bn))
  {
  }

  // ----- what is logged, and what stays -----

  // Every bitmap block and every other block that differs is in L.
  ghost predicate Logs(g: Super, s: State, s': State, L: set<nat>)
  {
    && |s'.used| == |s.used| && |s'.blocks| == |s.blocks|
    && (forall b :: 0 <= b < |s.used| && s'.used[b] != s.used[b] ==> BBlock(g, b) in L)
    && (forall b :: 0 <= b < |s.blocks| && s'.blocks[b] != s.blocks[b] ==> b in L)
  }

  // No reference of another inode changes, and inode i keeps those it has.
  ghost predicate Stays(g: Super, s: State, s': State, i: nat)
    requires Shape(g, s) && Shape(g, s')
  {
    && |s'.inodes| == |s.inodes|
    && (forall j, l :: Slot(s, j, l) && (j != i || Ref(s, j, l) != 0) ==> Ref(s', j, l) == Ref(s, j, l))
  }

  ghost predicate Kept(g: Super, s: State, s': State, i: nat, L: set<nat>)
  {
    Shape(g, s) && Shape(g, s') && Logs(g, s, s', L) && Stays(g, s, s', i)
  }

  lemma NothingChanged(g: Super, s: State, i: nat, L: set<nat>)
    requires Shape(g, s)
    ensures Kept(g, s, s, i, L)
  {
  }

  lemma LogsThen(g: Super, s: State, s1: State, s2: State, L1: set<nat>, L2: set<nat>)
    requires Logs(g, s, s1, L1) && Logs(g, s1, s2, L2) && L1 <= L2
    ensures Logs(g, s, s2, L2)
  {
  }

  lemma KeptThen(g: Super, s: State, s1: State, s2: State, i: nat, L1: set<nat>, L2: set<nat>)
    requires Kept(g, s, s1, i, L1) && Kept(g, s1, s2, i, L2) && L1 <= L2
    ensures Kept(g, s, s2, i, L2)
  {
    hide Ref;
    LogsThen(g, s, s1, s2, L1, L2);
    forall j, l | Slot(s, j, l) && (j != i || Ref(s, j, l) != 0) ensures Ref(s2, j, l) == Ref(s, j, l) {
      assert Ref(s1, j, l) == Ref(s, j, l) && Slot(s1, j, l);
    }
  }

  lemma LogsNothing(g: Super, s: State, L: set<nat>)
    ensures Logs(g, s, s, L)
  {
  }

  lemma AddrLogs(g: Super, s: State, i: nat, n: nat, b: nat, L: set<nat>)
    requires Shape(g, s) && i < |s.inodes| && n <= NDIRECT && b < g.size && b in L && BBlock(g, b) in L
    ensures Logs(g, s, WithAddr(s, i, n, b), L)
  {
  }

  lemma MappedStays(g: Super, s: State, s': State, i: nat, bn: nat, addr: nat)
    requires Shape(g, s) && Shape(g, s') && i < |s.inodes| && bn < MAXFILE && Mapped(g, s, s', i, bn, addr)
    requires s.inodes[i].addrs[NDIRECT] != 0 ==> s'.inodes[i].addrs[NDIRECT] == s.inodes[i].addrs[NDIRECT]
    ensures Stays(g, s, s', i)
  {
  }

  lemma ResizeKept(g: Super, s: State, s': State, i: nat, L: set<nat>)
    requires Shape(g, s) && i < |s.inodes| == |s'.inodes|
    requires s' == s.(inodes := s.inodes[i := s.inodes[i].(size := s'.inodes[i].size)])
    ensures Kept(g, s, s', i, L)
  {
  }

  lemma BmapKept(g: Super, s0: State, s: State, s': State, i: nat, bn: nat, addr: nat, L: set<nat>, L': set<nat>)
    requires Kept(g, s0, s, i, L) && Shape(g, s') && i < |s.inodes| && bn < MAXFILE && Mapped(g, s, s', i, bn, addr)
    requires s.inodes[i].addrs[NDIRECT] != 0 ==> s'.inodes[i].addrs[NDIRECT] == s.inodes[i].addrs[NDIRECT]
    requires L <= L' && Logs(g, s, s', L')
    ensures Kept(g, s0, s', i, L')
  {
    hide Logs, Mapped;
    MappedStays(g, s, s', i, bn, addr);
    KeptThen(g, s0, s, s', i, L, L');
  }

  // Data block bn is overwritten and logged.
  lemma PatchKept(g: Super, s0: State, s: State, s': State, i: nat, bn: nat, L: set<nat>, L': set<nat>)
    requires Kept(g, s0, s, i, L) && Struct(g, s) && Shape(g, s') && i < |s.inodes| && bn < MAXFILE && L <= L'
    requires var b := Ref(s, i, bn); 0 < b < g.size && b in L' && s' == s.(blocks := s.blocks[b := s'.blocks[b]])
    ensures Kept(g, s0, s', i, L')
  {
    assert Slot(s, i, bn);
    forall j, l | Slot(s, j, l) ensures Ref(s', j, l) == Ref(s, j, l) {
      assert Slot(s, j, MAXFILE) && Ref(s, j, MAXFILE) == s.inodes[j].addrs[NDIRECT];
    }
    KeptThen(g, s0, s, s', i, L, L');
  }

  // ----- itrunc -----

  // Inode i refers to block b.
  ghost predicate RefersTo(s: State, i: nat, b: nat)
    requires i < |s.inodes| && |s.inodes[i].addrs| == NDIRECT + 1
  {
    b != 0 && exists k :: Slot(s, i, k) && Ref(s, i, k) == b
  }

  // The bitmap blocks with the bits of inode i's blocks.
  ghost function BitmapsOf(g: Super, s: State, i: nat): set<nat>
    requires i < |s.inodes| && |s.inodes[i].addrs| == NDIRECT + 1
  {
    set b | 0 <= b < g.size && RefersTo(s, i, b) :: BBlock(g, b)
  }

  // Blocks have only been freed since u0, and beyond L0 exactly their bitmap blocks are in the log.
  ghost predicate LogsFreed(g: Super, u0: seq<bool>, u: seq<bool>, L0: set<nat>, L: set<nat>)
  {
    && |u| == |u0| && (forall b :: 0 <= b < |u| && u[b] ==> u0[b])
    && L == L0 + set b | 0 <= b < |u0| && u0[b] && !u[b] :: BBlock(g, b)
  }

  lemma NothingFreed(g: Super, u: seq<bool>, L: set<nat>)
    ensures LogsFreed(g, u, u, L, L)
  {
  }

  lemma FreedOne(g: Super, u0: seq<bool>, u: seq<bool>, L0: set<nat>, L: set<nat>, b: nat)
    requires LogsFreed(g, u0, u, L0, L) && b < |u| && u[b]
    ensures LogsFreed(g, u0, u[b := false], L0, L + {BBlock(g, b)})
  {
    hide BBlock;
    var u' := u[b := false];
    var x := set a | 0 <= a < |u0| && u0[a] && !u[a] :: BBlock(g, a);
    var y := set a | 0 <= a < |u0| && u0[a] && !u'[a] :: BBlock(g, a);
    forall m | m in x ensures m in y {
      var a :| 0 <= a < |u0| && u0[a] && !u[a] && BBlock(g, a) == m;
      assert !u'[a];
    }
    assert !u'[b];
    forall m | m in y ensures m in x + {BBlock(g, b)} {
      var a :| 0 <= a < |u0| && u0[a] && !u'[a] && BBlock(g, a) == m;
      assert a != b ==> !u[a];
    }
  }

  // What itrunc has freed in the end.
  lemma FreedAll(g: Super, s0: State, u: seq<bool>, i: nat, L0: set<nat>, L: set<nat>)
    requires Valid(g, s0) && i < |s0.inodes| && LogsFreed(g, s0.used, u, L0, L)
    requires forall b :: 0 <= b < g.size ==> (u[b] <==> s0.used[b] && !RefersTo(s0, i, b))
    ensures L == L0 + BitmapsOf(g, s0, i)
  {
    hide BBlock, MappedTo;
    forall b | 0 <= b < g.size && RefersTo(s0, i, b) ensures s0.used[b] {
      var k :| Slot(s0, i, k) && Ref(s0, i, k) == b;
    }
    hide RefersTo, Valid;
    var x := set b | 0 <= b < |s0.used| && s0.used[b] && !u[b] :: BBlock(g, b);
    forall m | m in x ensures m in BitmapsOf(g, s0, i) {
      var b :| 0 <= b < |s0.used| && s0.used[b] && !u[b] && BBlock(g, b) == m;
      assert RefersTo(s0, i, b);
    }
    forall m | m in BitmapsOf(g, s0, i) ensures m in x {
      var b :| 0 <= b < g.size && RefersTo(s0, i, b) && BBlock(g, b) == m;
      assert !u[b];
    }
  }

  // itrunc fits an operation exactly when the file's blocks lie in fewer than MAXOPBLOCKS bitmap blocks.
  lemma TruncFits(g: Super, s: State, i: nat)
    requires i < |s.inodes| && |s.inodes[i].addrs| == NDIRECT + 1
    requires IBlock(g, i) < g.bmapstart || (g.size - 1) / BPB + g.bmapstart < IBlock(g, i)
    ensures |{IBlock(g, i)} + BitmapsOf(g, s, i)| <= Log.MAXOPBLOCKS <==> |BitmapsOf(g, s, i)| < Log.MAXOPBLOCKS
  {
    hide RefersTo;
    assert IBlock(g, i) !in BitmapsOf(g, s, i);
    assert |{IBlock(g, i)} + BitmapsOf(g, s, i)| == 1 + |BitmapsOf(g, s, i)|;
  }

  // On a disk with fewer than MAXOPBLOCKS bitmap blocks it always does.
  lemma SmallDiskFits(g: Super, s: State, i: nat)
    requires i < |s.inodes| && |s.inodes[i].addrs| == NDIRECT + 1 && g.size <= (Log.MAXOPBLOCKS - 1) * BPB
    ensures |BitmapsOf(g, s, i)| < Log.MAXOPBLOCKS
  {
    hide RefersTo;
    forall m | m in BitmapsOf(g, s, i) ensures m in Numbers(g.bmapstart, Log.MAXOPBLOCKS - 1) {
      var b :| 0 <= b < g.size && RefersTo(s, i, b) && BBlock(g, b) == m;
      assert 0 <= b / BPB < Log.MAXOPBLOCKS - 1;
    }
    Subset(BitmapsOf(g, s, i), Numbers(g.bmapstart, Log.MAXOPBLOCKS - 1));
  }

  // The n numbers from lo on.
  function Numbers(lo: nat, n: nat): (r: set<nat>)
    ensures |r| == n && forall m: nat :: m in r <==> lo <= m < lo + n
  {
    if n == 0 then {} else Numbers(lo, n - 1) + {lo + n - 1}
  }

  ghost predicate Truncating(g: Super, s0: State, s: State, i: nat)
  {
    && Struct(g, s) && i < |s.inodes| == |s0.inodes| && s.blocks == s0.blocks
    && (forall j :: 0 <= j < |s.inodes| && j != i ==> s.inodes[j] == s0.inodes[j])
  }

  function WithoutAddr(s: State, i: nat, n: nat): State
    requires i < |s.inodes| && n < |s.inodes[i].addrs| && s.inodes[i].addrs[n] < |s.used|
  {
    s.(used := s.used[s.inodes[i].addrs[n] := false],
      inodes := s.inodes[i := s.inodes[i].(addrs := s.inodes[i].addrs[n := 0])])
  }

  lemma DirectDropped(g: Super, s: State, i: nat, n: nat)
    requires Struct(g, s) && i < |s.inodes| && n < NDIRECT && s.inodes[i].addrs[n] != 0
    ensures s.inodes[i].addrs[n] < g.size && s.used[s.inodes[i].addrs[n]] && Struct(g, WithoutAddr(s, i, n))
  {
    assert Slot(s, i, n) && Ref(s, i, n) == s.inodes[i].addrs[n];
    RefDisappears(g, s, WithoutAddr(s, i, n), i, n);
  }

  lemma IndirectInRange(g: Super, s: State, i: nat)
    requires Struct(g, s) && i < |s.inodes| && s.inodes[i].addrs[NDIRECT] != 0
    ensures s.inodes[i].addrs[NDIRECT] < g.size && s.used[s.inodes[i].addrs[NDIRECT]]
  {
    assert Slot(s, i, MAXFILE) && Ref(s, i, MAXFILE) == s.inodes[i].addrs[NDIRECT];
  }

  lemma IndirectDropped(g: Super, s: State, i: nat)
    requires Struct(g, s) && i < |s.inodes| && s.inodes[i].addrs[NDIRECT] != 0
    requires s.inodes[i].addrs[NDIRECT] < g.size
    requires forall m :: 0 <= m < NINDIRECT ==> GetWord(s.blocks[s.inodes[i].addrs[NDIRECT]], m) == 0
    ensures s.used[s.inodes[i].addrs[NDIRECT]] && Struct(g, WithoutAddr(s, i, NDIRECT))
  {
    assert Slot(s, i, MAXFILE) && Ref(s, i, MAXFILE) == s.inodes[i].addrs[NDIRECT];
    RefDisappears(g, s, WithoutAddr(s, i, NDIRECT), i, MAXFILE);
  }

  function WithoutEntry(s: State, i: nat, bn: nat): State
    requires i < |s.inodes| && |s.inodes[i].addrs| == NDIRECT + 1 && NDIRECT <= bn < MAXFILE && Ref(s, i, bn) < |s.used|
    requires s.inodes[i].addrs[NDIRECT] < |s.blocks| && |s.blocks[s.inodes[i].addrs[NDIRECT]]| == BSIZE
  {
    var ia := s.inodes[i].addrs[NDIRECT];
    s.(used := s.used[Ref(s, i, bn) := false], blocks := s.blocks[ia := SetWord(s.blocks[ia], bn - NDIRECT, 0)])
  }

  lemma EntryDropped(g: Super, s: State, i: nat, bn: nat)
    requires Struct(g, s) && i < |s.inodes| && NDIRECT <= bn < MAXFILE && s.inodes[i].addrs[NDIRECT] != 0
    requires Ref(s, i, bn) != 0
    ensures s.inodes[i].addrs[NDIRECT] < g.size && Ref(s, i, bn) < g.size && s.used[Ref(s, i, bn)]
    ensures Struct(g, WithoutEntry(s, i, bn))
  {
    IndirectInRange(g, s, i);
    assert Slot(s, i, bn);
    var s', ia := WithoutEntry(s, i, bn), s.inodes[i].addrs[NDIRECT];
    WordRoundTrip(s.blocks[ia], bn - NDIRECT, 0, bn - NDIRECT);
    forall j, l | Slot(s, j, l) && (j != i || l != bn) ensures Ref(s', j, l) == Ref(s, j, l) {
      assert Slot(s, j, MAXFILE) && Ref(s, j, MAXFILE) == s.inodes[j].addrs[NDIRECT];
      assert Slot(s, i, MAXFILE) && Ref(s, i, MAXFILE) == ia;
      if NDIRECT <= l < MAXFILE && j == i {
        WordRoundTrip(s.blocks[ia], bn - NDIRECT, 0, l - NDIRECT);
      }
    }
    RefDisappears(g, s, s', i, bn);
  }

  lemma WordsBut(b: Block, j: nat)
    requires |b| == BSIZE && j < NINDIRECT
    ensures forall m :: 0 <= m < NINDIRECT ==> GetWord(SetWord(b, j, 0), m) == if m == j then 0 else GetWord(b, m)
  {
    forall m | 0 <= m < NINDIRECT ensures GetWord(SetWord(b, j, 0), m) == if m == j then 0 else GetWord(b, m) {
      WordRoundTrip(b, j, 0, m);
    }
  }

  // The content of a free block does not matter.
  lemma FreeBlockContent(g: Super, s: State, s': State, b: nat)
    requires Struct(g, s) && Shape(g, s') && s' == s.(blocks := s'.blocks) && 0 < b < g.size && !s.used[b]
    requires forall c :: 0 <= c < g.size && c != b ==> s'.blocks[c] == s.blocks[c]
    ensures Struct(g, s')
  {
    forall j, l | Slot(s, j, l) ensures Ref(s', j, l) == Ref(s, j, l) {
      assert Slot(s, j, MAXFILE) && Ref(s, j, MAXFILE) == s.inodes[j].addrs[NDIRECT];
    }
    SameRefs(g, s, s');
  }

  lemma Resized(g: Super, s: State, i: nat, n: nat)
    requires Struct(g, s) && i < |s.inodes|
    ensures Struct(g, s.(inodes := s.inodes[i := s.inodes[i].(size := n)]))
  {
    var s' := s.(inodes := s.inodes[i := s.inodes[i].(size := n)]);
    forall j, l | Slot(s, j, l) ensures Ref(s', j, l) == Ref(s, j, l) {
    }
    SameRefs(g, s, s');
  }

  lemma TruncEnd(g: Super, s0: State, s: State, i: nat)
    requires Valid(g, s0) && Struct(g, s) && i < |s.inodes| == |s0.inodes| && s.blocks == s0.blocks
    requires forall j :: 0 <= j < |s.inodes| && j != i ==> s.inodes[j] == s0.inodes[j]
    requires s.inodes[i].size == 0 && forall m :: 0 <= m <= NDIRECT ==> s.inodes[i].addrs[m] == 0
    ensures Valid(g, s) && File(s, i) == []
    ensures forall j :: 0 <= j < |s.inodes| && j != i ==> File(s, j) == File(s0, j)
    ensures forall b :: 0 <= b < g.size ==> (s.used[b] <==> s0.used[b] && !RefersTo(s0, i, b))
  {
    forall j, k | Slot(s, j, k) ensures Ref(s, j, k) == if j == i then 0 else Ref(s0, j, k) {
    }
    forall j | 0 <= j < |s.inodes| ensures MappedTo(s, j, s.inodes[j].size) {
      assert MappedTo(s0, j, s0.inodes[j].size);
      forall k | 0 <= k < MAXFILE ensures Ref(s, j, k) != 0 <==> k * BSIZE < s.inodes[j].size {
        assert Slot(s, j, k);
      }
    }
    forall j | 0 <= j < |s.inodes| && j != i ensures File(s, j) == File(s0, j) {
      forall p: nat ensures ByteAt(s, j, p) == ByteAt(s0, j, p) {
      }
    }
    forall b | 0 <= b < g.size ensures s.used[b] <==> s0.used[b] && !RefersTo(s0, i, b) {
      TruncUsed(g, s0, s, i, b);
    }
  }

  lemma TruncUsed(g: Super, s0: State, s: State, i: nat, b: nat)
    requires Struct(g, s0) && Struct(g, s) && i < |s.inodes| == |s0.inodes| && b < g.size
    requires forall j, k :: Slot(s, j, k) ==> Ref(s, j, k) == if j == i then 0 else Ref(s0, j, k)
    ensures s.used[b] <==> s0.used[b] && !RefersTo(s0, i, b)
  {
    if b >= g.meta && s.used[b] {
      assert IsRef(g, s, b);
      var j, k :| Slot(s, j, k) && Ref(s, j, k) == b;
      assert Slot(s0, j, k);
    }
    if b >= g.meta && s0.used[b] && !RefersTo(s0, i, b) {
      assert IsRef(g, s0, b);
      var j, k :| Slot(s0, j, k) && Ref(s0, j, k) == b;
      assert Slot(s, j, k);
    }
  }

  // ----- filewrite -----

  lemma SplicedNothing(f: seq<Byte>, off: nat)
    requires off <= |f|
    ensures Spliced(f, off, []) == f
  {
  }

  lemma SplicedTwice(f: seq<Byte>, off: nat, x: seq<Byte>, y: seq<Byte>)
    requires off <= |f|
    ensures off + |x + y| <= |Spliced(f, off, x + y)|
    ensures off + |x| <= |Spliced(f, off, x)| && Spliced(Spliced(f, off, x), off + |x|, y) == Spliced(f, off, x + y)
  {
  }

  // s is s0 with x written to file i at off; nothing happens beyond the end of the file.
  ghost predicate WrittenSoFar(g: Super, s0: State, s: State, i: nat, off: nat, x: seq<Byte>)
  {
    && Valid(g, s0) && Valid(g, s) && i < |s0.inodes| == |s.inodes|
    && (off <= s0.inodes[i].size ==> off + |x| <= s.inodes[i].size && File(s, i) == Spliced(File(s0, i), off, x))
    && (off > s0.inodes[i].size ==> x == [] && s == s0)
    && (forall j :: 0 <= j < |s.inodes| && j != i ==> s.inodes[j] == s0.inodes[j] && File(s, j) == File(s0, j))
  }

  lemma NothingYet(g: Super, s: State, i: nat, off: nat)
    requires Valid(g, s) && i < |s.inodes|
    ensures WrittenSoFar(g, s, s, i, off, [])
  {
    if off <= s.inodes[i].size {
      SplicedNothing(File(s, i), off);
    }
  }

  // writei(off + |x|, y) returned r.
  lemma MoreWritten(g: Super, s0: State, s: State, s': State, i: nat, off: nat, x: seq<Byte>, y: seq<Byte>, r: int)
    requires WrittenSoFar(g, s0, s, i, off, x) && Valid(g, s') && |s'.inodes| == |s.inodes| && -1 <= r <= |y|
    requires off + |x| > s.inodes[i].size ==> r == -1
    requires r == -1 ==> s' == s
    requires r != -1 ==> off + |x| <= s.inodes[i].size && File(s', i) == Spliced(File(s, i), off + |x|, y[..r])
    requires forall j :: 0 <= j < |s.inodes| && j != i ==> s'.inodes[j] == s.inodes[j] && File(s', j) == File(s, j)
    ensures WrittenSoFar(g, s0, s', i, off, if r > 0 then x + y[..r] else x)
  {
    hide Disjoint, MappedTo, Spliced, ByteAt;
    if r > 0 {
      SplicedTwice(File(s0, i), off, x, y[..r]);
    } else if r == 0 {
      assert y[..r] == [];
      SplicedNothing(File(s, i), off + |x|);
    }
  }

  class FileSystem {
    const g: Super
    var used: seq<bool>
    var blocks: seq<Block>
    var inodes: seq<Inode>
    var panicked: bool
    ghost var logged: set<nat>

    constructor (g: Super, s: State)
      ensures this.g == g && Now() == s && !panicked && logged == {}
    {
      this.g, used, blocks, inodes, panicked, logged := g, s.used, s.blocks, s.inodes, false, {};
    }

    ghost function Now(): State
      reads this
    {
      State(used, blocks, inodes)
    }

    // Allocate a zeroed block: the lowest free one, or 0 when all are in use.
    method Balloc() returns (r: nat)
      requires Shape(g, Now()) && (forall b :: 0 <= b < g.meta ==> used[b])
      modifies `used, `blocks, `logged
      ensures r == 0 <==> forall b :: 0 <= b < g.size ==> old(used)[b]
      ensures r == 0 ==> used == old(used) && blocks == old(blocks) && logged == old(logged)
      ensures r != 0 ==> g.meta <= r < g.size && !old(used)[r] && forall b :: 0 <= b < r ==> old(used)[b]
      ensures r != 0 ==> used == old(used)[r := true] && blocks == old(blocks)[r := ZeroBlock()]
      ensures r != 0 ==> logged == old(logged) + {BBlock(g, r), r}
    {
      var b := 0;
      while b < g.size
        invariant used == old(used) && blocks == old(blocks) && logged == old(logged)
        invariant b % BPB == 0
        invariant forall c :: 0 <= c < b && c < g.size ==> used[c]
      {
        var bi := 0;
        while bi < BPB && b + bi < g.size
          invariant bi <= BPB && used == old(used) && blocks == old(blocks) && logged == old(logged)
          invariant forall c :: 0 <= c < b + bi && c < g.size ==> used[c]
        {
          if !used[b + bi] {
            used := used[b + bi := true];
            logged := logged + {BBlock(g, b)};
            blocks := blocks[b + bi := ZeroBlock()];
            logged := logged + {b + bi};
            assert BBlock(g, b + bi) == BBlock(g, b);
            return b + bi;
          }
          bi := bi + 1;
        }
        b := b + BPB;
      }
      r := 0;
    }

    method Bfree(b: nat)
      requires b < |used| && !panicked
      modifies `used, `logged, `panicked
      ensures panicked <==> !old(used)[b]
      ensures !panicked ==> used == old(used)[b := false] && logged == old(logged) + {BBlock(g, b)}
    {
      if !used[b] {
        panicked := true;
        return;
      }
      used := used[b := false];
      logged := logged + {BBlock(g, b)};
    }

    // The indirect block of inode i and its bitmap block.
    ghost function Indirect(i: nat): set<nat>
      requires i < |inodes| && |inodes[i].addrs| == NDIRECT + 1
      reads this
    {
      var ia := inodes[i].addrs[NDIRECT];
      if ia == 0 then {} else {ia, BBlock(g, ia)}
    }

    method Bmap(i: nat, bn: nat) returns (addr: nat)
      requires Struct(g, Now()) && i < |inodes| && bn < MAXFILE
      modifies `used, `blocks, `inodes, `logged
      ensures Struct(g, Now()) && Mapped(g, old(Now()), Now(), i, bn, addr)
      ensures Ref(old(Now()), i, bn) != 0 ==> Now() == old(Now()) && logged == old(logged)
      ensures addr == 0 ==> forall b :: 0 <= b < g.size ==> used[b]
      ensures old(inodes[i].addrs[NDIRECT]) != 0 ==> inodes[i].addrs[NDIRECT] == old(inodes[i].addrs[NDIRECT])
      ensures logged <= old(logged) + Indirect(i) + (if addr == 0 then {} else {addr, BBlock(g, addr)})
      ensures old(logged) <= logged && Logs(g, old(Now()), Now(), logged)
    {
      hide Logs;
      ghost var s0 := Now();
      LogsNothing(g, s0, logged);
      assert Slot(s0, i, bn) && Slot(s0, i, MAXFILE);
      if bn < NDIRECT {
        addr := inodes[i].addrs[bn];
        if addr == 0 {
          addr := Balloc();
          if addr != 0 {
            DirectMapped(g, s0, i, bn, addr);
            inodes := inodes[i := inodes[i].(addrs := inodes[i].addrs[bn := addr])];
            assert Now() == WithAddr(s0, i, bn, addr);
            AddrLogs(g, s0, i, bn, addr, logged);
          }
        }
        return;
      }
      var ia := inodes[i].addrs[NDIRECT];
      if ia == 0 {
        ia := Balloc();
        if ia == 0 {
          return 0;
        }
        IndirectAdded(g, s0, i, bn, ia);
        inodes := inodes[i := inodes[i].(addrs := inodes[i].addrs[NDIRECT := ia])];
        assert Now() == WithAddr(s0, i, NDIRECT, ia);
        AddrLogs(g, s0, i, NDIRECT, ia, logged);
      }
      ghost var s1, logs := Now(), logged;
      addr := BmapEntry(i, bn, ia);
      LogsThen(g, s0, s1, Now(), logs, logged);
      if Ref(s0, i, MAXFILE) == 0 {
        MappedTwice(g, s0, WithAddr(s0, i, NDIRECT, ia), Now(), i, bn, addr);
      }
    }

    // bmap's last part: entry bn of the indirect block ia.
    method BmapEntry(i: nat, bn: nat, ia: nat) returns (addr: nat)
      requires Struct(g, Now()) && i < |inodes| && NDIRECT <= bn < MAXFILE && ia != 0 && ia == inodes[i].addrs[NDIRECT]
      modifies `used, `blocks, `logged
      ensures Struct(g, Now()) && Mapped(g, old(Now()), Now(), i, bn, addr)
      ensures Ref(old(Now()), i, bn) != 0 ==> Now() == old(Now()) && logged == old(logged)
      ensures addr == 0 ==> forall b :: 0 <= b < g.size ==> used[b]
      ensures logged <= old(logged) + {ia} + (if addr == 0 then {} else {addr, BBlock(g, addr)})
      ensures old(logged) <= logged && Logs(g, old(Now()), Now(), logged)
    {
      ghost var s0 := Now();
      assert Slot(s0, i, bn) && Slot(s0, i, MAXFILE) && Ref(s0, i, MAXFILE) == ia;
      addr := GetWord(blocks[ia], bn - NDIRECT);
      assert addr == Ref(s0, i, bn);
      if addr == 0 {
        addr := Balloc();
        if addr != 0 {
          EntryMapped(g, s0, i, bn, addr);
          blocks := blocks[ia := SetWord(blocks[ia], bn - NDIRECT, addr)];
          logged := logged + {ia};
          assert Now() == WithEntry(s0, i, bn, addr);
        }
      }
    }

    // Copy n bytes at offset off of inode i to dst.
    method Readi(i: nat, off: nat, n: nat) returns (dst: seq<Byte>)
      requires Valid(g, Now()) && i < |inodes| && off < UINT && n < UINT
      modifies `used, `blocks, `inodes, `logged
      ensures Now() == old(Now()) && logged == old(logged)
      ensures off > inodes[i].size || off + n >= UINT ==> dst == []
      ensures off <= inodes[i].size && off + n < UINT ==>
        dst == File(Now(), i)[off..if off + n > inodes[i].size then inodes[i].size else off + n]
    {
      hide Disjoint, Mapped, Valid, File, Logs;
      dst := [];
      ValidParts(g, Now(), i);
      if off > inodes[i].size || (off + n) % UINT < off {
        return;
      }
      var n' := if off + n > inodes[i].size then inodes[i].size - off else n;
      ghost var f := File(Now(), i);
      while |dst| < n'
        invariant |dst| <= n' && Now() == old(Now()) && logged == old(logged)
        invariant dst == f[off..off + |dst|]
      {
        var at := off + |dst|;
        var m := if n' - |dst| < BSIZE - at % BSIZE then n' - |dst| else BSIZE - at % BSIZE;
        ReadChunk(g, Now(), i, at, m);
        var addr := Bmap(i, at / BSIZE);
        MappedAt(g, old(Now()), Now(), i, at / BSIZE, addr);
        if addr == 0 {
          assert false;
          break;
        }
        dst := dst + blocks[addr][at % BSIZE..at % BSIZE + m];
      }
    }

    // One round of writei's loop.
    method WriteRound(i: nat, off: nat, src: seq<Byte>, tot: nat,
                      ghost s0: State, ghost before: set<nat>, ghost mine: set<nat>, ghost touched: nat,
                        ghost fresh_: nat)
      returns (m: nat, full: bool, ghost mine': set<nat>, ghost fresh': nat)
      requires tot < |src| && Progress(g, s0, Now(), i, off, src[..tot])
      requires Valid(g, s0) && i < |inodes| && |inodes[i].addrs| == NDIRECT + 1 && off <= s0.inodes[i].size
      requires off + |src| <= MAXFILE * BSIZE
      requires logged <= before + mine + Indirect(i) && |mine| <= touched + fresh_
      requires Rounds(off, tot, |src|, touched, fresh_)
      requires Kept(g, s0, Now(), i, logged)
      modifies `used, `blocks, `inodes, `logged
      ensures tot + m <= |src| && Progress(g, s0, Now(), i, off, src[..tot + m])
      ensures i < |inodes| && |inodes[i].addrs| == NDIRECT + 1
      ensures full ==> m == 0 && fresh' == fresh_ && |mine'| <= touched + fresh' && forall b ::
        0 <= b < g.size && b < |used| ==> used[b]
      ensures !full ==> m > 0 && |mine'| <= touched + 1 + fresh' && Rounds(off, tot + m, |src|, touched + 1, fresh')
      ensures logged <= before + mine' + Indirect(i) && Kept(g, s0, Now(), i, logged)
    {
      hide Disjoint, Progress, Valid, Mapped, Rounds, Logs, Stays;
      ghost var s := Now();
      ProgressParts(g, s0, s, i, off, src[..tot]);
      ghost var ind, logs := Indirect(i), logged;
      var bn, o := (off + tot) / BSIZE, (off + tot) % BSIZE;
      var addr := Bmap(i, bn);
      ghost var s1 := Now();
      MappedAt(g, s, s1, i, bn, addr);
      BmapKept(g, s0, s, s1, i, bn, addr, logs, logged);
      mine', fresh' := mine, fresh_;
      if addr == 0 {
        StopProgress(g, s0, s, s1, i, off, src[..tot], bn);
        return 0, true, mine', fresh';
      }
      m := if |src| - tot < BSIZE - o then |src| - tot else BSIZE - o;
      AddrInRange(g, s1, i, bn);
      ghost var logs1 := logged;
      blocks := blocks[addr := Patched(blocks[addr], o, src[tot..tot + m])];
      logged := logged + {addr};
      PatchKept(g, s0, s1, Now(), i, bn, logs1, logged);
      MoreProgress(g, s0, s, s1, Now(), i, off, src[..tot], src[tot..tot + m], addr);
      assert src[..tot] + src[tot..tot + m] == src[..tot + m];
      FirstIsMapped(g, s0, s, i, off, src[..tot]);
      mine' := Account(before, mine, ind, Indirect(i), logs, logged, addr, BBlock(g, addr), Ref(s, i, bn) == 0);
      fresh' := if Ref(s, i, bn) == 0 then fresh_ + 1 else fresh_;
      NextRound(off, tot, |src|, touched, fresh_, m, fresh');
      full := false;
    }

    method WriteLoop(i: nat, off: nat, src: seq<Byte>) returns (tot: nat)
      requires Valid(g, Now()) && i < |inodes| && off <= inodes[i].size && off + |src| <= MAXFILE * BSIZE
      modifies `used, `blocks, `inodes, `logged
      ensures tot <= |src| && Progress(g, old(Now()), Now(), i, off, src[..tot])
      ensures tot < |src| ==> forall b :: 0 <= b < g.size && b < |used| ==> used[b]
      ensures |src| <= 3 * BSIZE ==> |logged - old(logged)| <= 9
      ensures Kept(g, old(Now()), Now(), i, logged)
    {
      hide Disjoint, Progress, Valid, Rounds, Logs, Stays;
      ghost var s0 := Now();
      ValidParts(g, s0, i);
      var full := false;
      tot := 0;
      ghost var touched, fresh_, mine: set<nat> := 0, 0, {};
      assert src[..0] == [];
      StartProgress(g, s0, i, off);
      NoRounds(off, |src|);
      NothingChanged(g, s0, i, logged);
      while tot < |src| && !full
        invariant Kept(g, s0, Now(), i, logged)
        invariant tot <= |src| && Progress(g, s0, Now(), i, off, src[..tot]) && i < |inodes|
        invariant |inodes[i].addrs| == NDIRECT + 1
        invariant logged <= old(logged) + mine + Indirect(i) && |mine| <= touched + fresh_
        invariant Rounds(off, tot, |src|, touched, fresh_)
        invariant full ==> forall b :: 0 <= b < g.size && b < |used| ==> used[b]
        decreases |src| - tot, if full then 0 else 1
      {
        var m;
        m, full, mine, fresh_ := WriteRound(i, off, src, tot, s0, old(logged), mine, touched, fresh_);
        touched := if full then touched else touched + 1;
        tot := tot + m;
      }
      if |src| <= 3 * BSIZE {
        AtMostNine(off, tot, |src|, touched, fresh_, old(logged), mine, Indirect(i), logged);
      }
    }

    // Write src at offset off of inode i; -1 if the request is out of range.
    method Writei(i: nat, off: nat, src: seq<Byte>) returns (r: int)
      requires Valid(g, Now()) && i < |inodes| && off < UINT && |src| < UINT
      modifies `used, `blocks, `inodes, `logged
      ensures Valid(g, Now()) && |inodes| == |old(inodes)|
      ensures r == -1 <==> off > old(inodes)[i].size || off + |src| >= UINT || off + |src| > MAXFILE * BSIZE
      ensures r == -1 ==> Now() == old(Now()) && logged == old(logged)
      ensures r != -1 ==> 0 <= r <= |src| && File(Now(), i) == Spliced(File(old(Now()), i), off, src[..r])
      ensures r != -1 ==> forall j :: 0 <= j < |inodes| && j != i ==>
        inodes[j] == old(inodes)[j] && File(Now(), j) == File(old(Now()), j)
      ensures -1 < r < |src| ==> forall b :: 0 <= b < g.size ==> used[b]
      ensures |src| <= 3 * BSIZE ==> |logged - old(logged)| <= 10
      ensures Kept(g, old(Now()), Now(), i, logged) && (inodes != old(inodes) ==> IBlock(g, i) in logged)
    {
      hide Disjoint, Progress, Spliced, File, Valid, Rounds, Logs, Stays;
      var n := |src|;
      ghost var s0 := Now();
      ValidParts(g, s0, i);
      if off > inodes[i].size || (off + n) % UINT < off || off + n > MAXFILE * BSIZE {
        assert logged - old(logged) == {};
        NothingChanged(g, s0, i, logged);
        return -1;
      }
      var tot := WriteLoop(i, off, src);
      FinishProgress(g, s0, Now(), i, off, src[..tot]);
      ghost var logs, s1, logs1 := logged - old(logged), Now(), logged;
      if off + tot > inodes[i].size {
        inodes := inodes[i := inodes[i].(size := off + tot)];
      } else {
        assert inodes == inodes[i := inodes[i].(size := s0.inodes[i].size)];
      }
      ValidParts(g, Now(), i);
      logged := logged + {IBlock(g, i)};
      ResizeKept(g, s1, Now(), i, logged);
      KeptThen(g, s0, s1, Now(), i, logs1, logged);
      if n <= 3 * BSIZE {
        Subset(logged - old(logged), logs + {IBlock(g, i)});
        Union(logs, {IBlock(g, i)});
      }
      r := tot;
    }

    // Discard the contents of inode i.
    method Itrunc(i: nat)
      requires Valid(g, Now()) && i < |inodes| && !panicked
      modifies `used, `inodes, `logged, `panicked
      ensures Valid(g, Now()) && !panicked && |inodes| == |old(inodes)| && File(Now(), i) == []
      ensures forall j :: 0 <= j < |inodes| && j != i ==>
        inodes[j] == old(inodes)[j] && File(Now(), j) == File(old(Now()), j)
      ensures forall b :: 0 <= b < g.size ==> (used[b] <==> old(used)[b] && !RefersTo(old(Now()), i, b))
      ensures Logs(g, old(Now()), Now(), logged)
      ensures |old(inodes)[i].addrs| == NDIRECT + 1
      ensures logged == old(logged) + {IBlock(g, i)} + BitmapsOf(g, old(Now()), i)
    {
      hide Disjoint, Valid, File, RefersTo, LogsFreed;
      ghost var s0, L0 := Now(), logged;
      ValidParts(g, s0, i);
      NothingFreed(g, used, logged);
      TruncDirect(i, s0, L0);
      if inodes[i].addrs[NDIRECT] != 0 {
        TruncIndirect(i, s0, L0);
      }
      Resized(g, Now(), i, 0);
      inodes := inodes[i := inodes[i].(size := 0)];
      TruncEnd(g, s0, Now(), i);
      FreedAll(g, s0, used, i, L0, logged);
      logged := logged + {IBlock(g, i)};
    }

    // itrunc's first part: the direct blocks.
    method TruncDirect(i: nat, ghost s0: State, ghost L0: set<nat>)
      requires Truncating(g, s0, Now(), i) && !panicked
      requires Logs(g, s0, Now(), logged) && LogsFreed(g, s0.used, used, L0, logged)
      modifies `used, `inodes, `logged, `panicked
      ensures Truncating(g, s0, Now(), i) && !panicked && Logs(g, s0, Now(), logged)
      ensures LogsFreed(g, s0.used, used, L0, logged)
      ensures forall m :: 0 <= m < NDIRECT ==> inodes[i].addrs[m] == 0
    {
      hide Disjoint, LogsFreed;
      for n := 0 to NDIRECT
        invariant Truncating(g, s0, Now(), i) && !panicked && Logs(g, s0, Now(), logged)
        invariant LogsFreed(g, s0.used, used, L0, logged)
        invariant forall m :: 0 <= m < n ==> inodes[i].addrs[m] == 0
      {
        if inodes[i].addrs[n] != 0 {
          ghost var s := Now();
          DirectDropped(g, s, i, n);
          FreedOne(g, s0.used, used, L0, logged, inodes[i].addrs[n]);
          Bfree(inodes[i].addrs[n]);
          inodes := inodes[i := inodes[i].(addrs := inodes[i].addrs[n := 0])];
          assert Now() == WithoutAddr(s, i, n);
        }
      }
    }

    // itrunc's second part: the blocks listed in the indirect block, then the indirect block.
    method TruncIndirect(i: nat, ghost s0: State, ghost L0: set<nat>)
      requires Truncating(g, s0, Now(), i) && !panicked && inodes[i].addrs[NDIRECT] != 0
      requires Logs(g, s0, Now(), logged) && LogsFreed(g, s0.used, used, L0, logged)
      modifies `used, `inodes, `logged, `panicked
      ensures Truncating(g, s0, Now(), i) && !panicked && Logs(g, s0, Now(), logged)
      ensures LogsFreed(g, s0.used, used, L0, logged)
      ensures inodes[i].addrs == old(inodes[i].addrs)[NDIRECT := 0]
    {
      hide Disjoint, LogsFreed;
      var ia := inodes[i].addrs[NDIRECT];
      IndirectInRange(g, Now(), i);
      assert blocks[ia := blocks[ia]] == blocks;
      ghost var left := blocks[ia];      // the indirect block without the entries already freed
      for j := 0 to NINDIRECT
        invariant inodes == old(inodes) && !panicked && |left| == BSIZE && |used| == g.size
        invariant Logs(g, s0, Now(), logged) && LogsFreed(g, s0.used, used, L0, logged)
        invariant Struct(g, State(used, blocks[ia := left], inodes))
        invariant forall m :: 0 <= m < j ==> GetWord(left, m) == 0
        invariant forall m :: j <= m < NINDIRECT ==> GetWord(left, m) == GetWord(blocks[ia], m)
      {
        var a := GetWord(blocks[ia], j);
        if a != 0 {
          ghost var s := State(used, blocks[ia := left], inodes);
          EntryDropped(g, s, i, NDIRECT + j);
          FreedOne(g, s0.used, used, L0, logged, a);
          Bfree(a);
          ghost var was := left;
          left := SetWord(left, j, 0);
          WordsBut(was, j);
          assert State(used, blocks[ia := left], inodes) == WithoutEntry(s, i, NDIRECT + j);
        }
      }
      ghost var s := State(used, blocks[ia := left], inodes);
      IndirectDropped(g, s, i);
      FreedOne(g, s0.used, used, L0, logged, ia);
      Bfree(ia);
      inodes := inodes[i := inodes[i].(addrs := inodes[i].addrs[NDIRECT := 0])];
      assert State(used, s.blocks, inodes) == WithoutAddr(s, i, NDIRECT);
      FreeBlockContent(g, State(used, s.blocks, inodes), Now(), ia);
    }

    // write(2) on an inode: chunks that fit the log reservation, one operation each.
    method Filewrite(i: nat, off: nat, n: int, src: seq<Byte>) returns (ret: int, off': nat, ghost done: nat,
                     ghost ops: seq<set<nat>>)
      requires Valid(g, Now()) && i < |inodes| && off < UINT && |src| == if n < 0 then 0 else n
      modifies `used, `blocks, `inodes, `logged
      ensures Valid(g, Now()) && |inodes| == |old(inodes)|
      ensures done <= |src| && off' == off + done && (ret == n || ret == -1) && (ret == n != -1 ==> done == n)
      ensures n >= 0 && ret == -1 ==> done < n
      ensures WrittenSoFar(g, old(Now()), Now(), i, off, src[..done])
      ensures forall k :: 0 <= k < |ops| ==> |ops[k]| <= Log.MAXOPBLOCKS
    {
      hide Valid, Spliced, File, WrittenSoFar;
      var max := (Log.MAXOPBLOCKS - 1 - 1 - 2) / 2 * BSIZE;
      var k := 0;
      off', done, ops := off, 0, [];
      ghost var s0 := Now();
      NothingYet(g, s0, i, off);
      assert src[..0] == [];
      while k < n
        invariant Valid(g, Now()) && |inodes| == |s0.inodes| && (k <= n || n < 0) && 0 <= k == done <= |src|
        invariant off' == off + done
        invariant WrittenSoFar(g, s0, Now(), i, off, src[..done])
        invariant done > 0 ==> off' <= MAXFILE * BSIZE
        invariant forall m :: 0 <= m < |ops| ==> |ops[m]| <= Log.MAXOPBLOCKS
      {
        var n1 := if n - k > max then max else n - k;
        logged := {};
        ghost var s := Now();
        var r := Writei(i, off', src[k..k + n1]);
        assert logged - {} == logged;
        ops := ops + [logged];
        MoreWritten(g, s0, s, Now(), i, off, src[..done], src[k..k + n1], r);
        if r > 0 {
          assert src[..done] + src[k..k + n1][..r] == src[..done + r];
          off', done := off' + r, done + r;
        }
        if r != n1 {
          break;
        }
        k := k + r;
      }
      ret := if k == n then n else -1;
    }
  }
}
