/**
  The bound on a chunk of filewrite is reached: a file system in which writing
  three blocks' worth of bytes at an unaligned offset logs ten blocks.  The file
  has twelve blocks, so that the write needs the indirect block and three new
  data blocks, and the free blocks all lie in different bitmap blocks.  And
  itrunc can go beyond it: a file with its blocks in twelve bitmap blocks.
 */
module FsTight {
  import opened Fs
  import opened FsCode
  import Log

  // Inodes in blocks 32 to 2591, bitmap in blocks 2592 to 2596.
  const G: Super := Super(5 * BPB, META, 2592, 32)
  const META: nat := BPB - 13

  const OFF: nat := 11 * BSIZE + 1
  const LEN: nat := 3 * BSIZE

  // The last block of each bitmap block's range is free.
  predicate IsFree(b: nat) { b % BPB == BPB - 1 }

  // Inode 0 is the file; every other block in use is a file of its own.
  function InodeOf(j: nat): (x: Inode)
    ensures |x.addrs| == NDIRECT + 1
  {
    if j == 0 then Inode(seq(NDIRECT + 1, k => if 0 <= k < NDIRECT then META + k else 0), OFF)
    else if j >= BPB && !IsFree(j) then Inode(seq(NDIRECT + 1, k => if k == 0 then j else 0), BSIZE)
    else Inode(seq(NDIRECT + 1, _ => 0), 0)
  }

  function Crowded(): (s: State)
    ensures |s.used| == |s.blocks| == |s.inodes| == 5 * BPB
    ensures forall b :: 0 <= b < 5 * BPB ==>
      s.used[b] == !IsFree(b) && s.blocks[b] == ZeroBlock() && s.inodes[b] == InodeOf(b)
  {
    State(seq(5 * BPB, b requires 0 <= b => !IsFree(b)), seq(5 * BPB, _ => ZeroBlock()),
      seq(5 * BPB, j requires 0 <= j => InodeOf(j)))
  }

  lemma CrowdedRef(j: nat, k: nat)
    requires j < 5 * BPB
    ensures Ref(Crowded(), j, k) ==
      if j == 0 && k < NDIRECT then META + k else if k == 0 && j >= BPB && !IsFree(j) then j else 0
  {
    assert Crowded().inodes[j] == InodeOf(j);
  }

  lemma CrowdedShape()
    ensures Shape(G, Crowded())
  {
    var s := Crowded();
    forall b | 0 <= b < |s.blocks| ensures |s.blocks[b]| == BSIZE {
      assert s.blocks[b] == ZeroBlock();
    }
    forall i | 0 <= i < |s.inodes| ensures |s.inodes[i].addrs| == NDIRECT + 1 {
      assert s.inodes[i] == InodeOf(i);
    }
  }

  lemma CrowdedDisjoint()
    ensures Shape(G, Crowded()) && Disjoint(G, Crowded())
  {
    hide Ref;
    var s := Crowded();
    CrowdedShape();
    forall j, k | Slot(s, j, k)
      ensures Ref(s, j, k) == if j == 0 && k < NDIRECT then META + k else if k == 0 && j >= BPB && !IsFree(j) then j
        else 0
    {
      CrowdedRef(j, k);
    }
    forall b | G.meta <= b < G.size && s.used[b] ensures IsRef(G, s, b) {
      if b < BPB {
        assert Slot(s, 0, b - META) && Ref(s, 0, b - META) == b;
      } else {
        assert Slot(s, b, 0) && Ref(s, b, 0) == b;
      }
    }
  }

  lemma CrowdedMapped(i: nat)
    requires i < 5 * BPB
    ensures var s := Crowded();
      |s.inodes[i].addrs| == NDIRECT + 1 && s.inodes[i].size <= MAXFILE * BSIZE && MappedTo(s, i, s.inodes[i].size)
  {
    hide Ref;
    var s := Crowded();
    assert s.inodes[i] == InodeOf(i);
    forall k | 0 <= k < MAXFILE ensures Ref(s, i, k) != 0 <==> k * BSIZE < s.inodes[i].size {
      CrowdedRef(i, k);
    }
  }

  lemma CrowdedValid()
    ensures Valid(G, Crowded())
  {
    hide Ref, Disjoint, MappedTo;
    CrowdedDisjoint();
    forall i | 0 <= i < 5 * BPB
      ensures var s := Crowded();
        |s.inodes[i].addrs| == NDIRECT + 1 && s.inodes[i].size <= MAXFILE * BSIZE && MappedTo(s, i, s.inodes[i].size)
    {
      CrowdedMapped(i);
    }
  }

  // What Writei promises of the write.
  ghost predicate Wrote(s': State, L: set<nat>, r: nat, src: seq<Byte>)
    requires |src| == LEN
  {
    && Valid(G, s') && |s'.inodes| == 5 * BPB && r <= LEN && Kept(G, Crowded(), s', 0, L)
    && File(s', 0) == Spliced(File(Crowded(), 0), OFF, src[..r])
    && (r < LEN ==> forall b :: 0 <= b < G.size ==> s'.used[b])
    && (s'.inodes != Crowded().inodes ==> IBlock(G, 0) in L)
  }

  predicate NewSlot(l: nat) { l == 12 || l == 13 || l == 14 || l == MAXFILE }

  // A block that was in use still belongs to whom it belonged.
  lemma OldBlock(s': State, L: set<nat>, r: nat, src: seq<Byte>, b: nat) returns (j: nat, k: nat)
    requires |src| == LEN && Wrote(s', L, r, src) && META <= b < G.size && !IsFree(b)
    ensures Slot(s', j, k) && Ref(s', j, k) == b && !(j == 0 && NewSlot(k))
  {
    hide Ref, Spliced, File, Valid;
    j, k := if b < BPB then 0 else b, if b < BPB then b - META else 0;
    CrowdedRef(j, k);
    assert Slot(Crowded(), j, k);
  }

  // What the file newly refers to was free.
  lemma NewRefIsFree(s': State, L: set<nat>, r: nat, src: seq<Byte>, l: nat)
    requires |src| == LEN && Wrote(s', L, r, src) && NewSlot(l) && Ref(s', 0, l) != 0
    ensures META <= Ref(s', 0, l) < G.size && IsFree(Ref(s', 0, l)) && s'.used[Ref(s', 0, l)]
  {
    hide Ref, Spliced, File;
    assert Slot(s', 0, l);
    if !IsFree(Ref(s', 0, l)) {
      var j, k := OldBlock(s', L, r, src, Ref(s', 0, l));
    }
  }

  // Where a free block goes if it is used up.
  lemma FreeGoesTo(s': State, L: set<nat>, r: nat, src: seq<Byte>, b: nat) returns (l: nat)
    requires |src| == LEN && Wrote(s', L, r, src) && META <= b < G.size && IsFree(b) && s'.used[b]
    ensures NewSlot(l) && Ref(s', 0, l) == b
  {
    hide Ref, Spliced, File;
    var s := Crowded();
    assert IsRef(G, s', b);
    var j: nat, k: nat :| Slot(s', j, k) && Ref(s', j, k) == b;
    assert Slot(s, j, k);
    CrowdedRef(j, k);
    l := k;
    SizeAfter(s', L, r, src);
    assert MappedTo(s', 0, s'.inodes[0].size);
  }

  lemma SizeAfter(s': State, L: set<nat>, r: nat, src: seq<Byte>)
    requires |src| == LEN && Wrote(s', L, r, src)
    ensures s'.inodes[0].size == OFF + r
  {
    assert Crowded().inodes[0] == InodeOf(0);
    assert |File(s', 0)| == |Spliced(File(Crowded(), 0), OFF, src[..r])|;
  }

  // The write is not short: five blocks are free and it can use up four.
  lemma WritesAll(s': State, L: set<nat>, r: nat, src: seq<Byte>)
    requires |src| == LEN && Wrote(s', L, r, src)
    ensures r == LEN
  {
    hide Ref, Spliced, File, Valid, Kept;
    if r < LEN {
      var l0 := FreeGoesTo(s', L, r, src, BPB - 1);
      var l1 := FreeGoesTo(s', L, r, src, 2 * BPB - 1);
      var l2 := FreeGoesTo(s', L, r, src, 3 * BPB - 1);
      var l3 := FreeGoesTo(s', L, r, src, 4 * BPB - 1);
      var l4 := FreeGoesTo(s', L, r, src, 5 * BPB - 1);
    }
  }

  lemma ByteAfter(s': State, L: set<nat>, src: seq<Byte>, p: nat)
    requires |src| == LEN && Wrote(s', L, LEN, src) && OFF <= p < OFF + LEN
    ensures Ref(s', 0, p / BSIZE) != 0 && Ref(s', 0, p / BSIZE) < G.size
    ensures s'.blocks[Ref(s', 0, p / BSIZE)][p % BSIZE] == src[p - OFF]
  {
    SizeAfter(s', L, LEN, src);
    assert MappedTo(s', 0, s'.inodes[0].size) && Slot(s', 0, p / BSIZE);
    assert src[..LEN] == src;
    assert File(s', 0)[p] == src[p - OFF];
  }

  // Block k of the file has changed, so it is logged.
  lemma DataLogged(s': State, L: set<nat>, src: seq<Byte>, p: nat)
    requires |src| == LEN && Wrote(s', L, LEN, src) && OFF <= p < OFF + LEN && src[p - OFF] != 0
    ensures 0 < Ref(s', 0, p / BSIZE) < G.size && Ref(s', 0, p / BSIZE) in L
  {
    ByteAfter(s', L, src, p);
    hide Ref, File, Spliced, Valid, Stays;
    var a := Ref(s', 0, p / BSIZE);
    assert Crowded().blocks[a] == ZeroBlock();
    assert Crowded().blocks[a][p % BSIZE] == 0;
  }

  lemma IndirectLogged(s': State, L: set<nat>, src: seq<Byte>)
    requires |src| == LEN && Wrote(s', L, LEN, src) && Ref(s', 0, 12) != 0
    ensures 0 < Ref(s', 0, MAXFILE) < G.size && Ref(s', 0, MAXFILE) in L
  {
    hide File, Spliced;
    assert Slot(s', 0, MAXFILE);
    var a := Ref(s', 0, MAXFILE);
    ZeroWords(0);
    assert Crowded().blocks[a] == ZeroBlock();
    assert GetWord(s'.blocks[a], 0) == Ref(s', 0, 12);
  }

  lemma BitmapLogged(s': State, L: set<nat>, src: seq<Byte>, l: nat)
    requires |src| == LEN && Wrote(s', L, LEN, src) && NewSlot(l) && Ref(s', 0, l) != 0
    ensures META <= Ref(s', 0, l) < G.size && IsFree(Ref(s', 0, l)) && BBlock(G, Ref(s', 0, l)) in L
  {
    hide Ref, File, Spliced, Valid, Stays;
    NewRefIsFree(s', L, LEN, src, l);
    assert !Crowded().used[Ref(s', 0, l)];
  }

  lemma NewRefsDiffer(s': State, L: set<nat>, src: seq<Byte>, k: nat, l: nat)
    requires |src| == LEN && Wrote(s', L, LEN, src) && NewSlot(k) && NewSlot(l) && k != l && Ref(s', 0, k) != 0
    ensures Ref(s', 0, k) != Ref(s', 0, l)
  {
    hide Ref, File, Spliced, Kept;
    assert Slot(s', 0, k) && Slot(s', 0, l);
  }

  // The ten blocks, given the four new references.
  function Ten(a: nat, b: nat, c: nat, d: nat): set<nat>
  {
    {IBlock(G, 0), META + 11} + {a, b, c, d} + {BBlock(G, a), BBlock(G, b), BBlock(G, c), BBlock(G, d)}
  }

  lemma TenIsTen(a: nat, b: nat, c: nat, d: nat)
    requires META <= a < G.size && META <= b < G.size && META <= c < G.size && META <= d < G.size
    requires IsFree(a) && IsFree(b) && IsFree(c) && IsFree(d)
    requires a != b && a != c && a != d && b != c && b != d && c != d
    ensures |Ten(a, b, c, d)| == 10
  {
    hide BBlock, IBlock;
    var x, y, z := {IBlock(G, 0), META + 11}, {a, b, c, d}, {BBlock(G, a), BBlock(G, b), BBlock(G, c), BBlock(G, d)};
    Bitmaps(a);
    Bitmaps(b);
    Bitmaps(c);
    Bitmaps(d);
    Quotients(a, b);
    Quotients(a, c);
    Quotients(a, d);
    Quotients(b, c);
    Quotients(b, d);
    Quotients(c, d);
    assert x !! y && (x + y) !! z;
    assert |x| == 2 && |y| == 4 && |z| == 4;
  }

  lemma Bitmaps(a: nat)
    requires a < G.size
    ensures 2592 <= BBlock(G, a) < 2597 && IBlock(G, 0) == 32 && (IsFree(a) ==> a != META + 11)
  {
  }

  lemma Quotients(a: nat, b: nat)
    requires IsFree(a) && IsFree(b) && a != b
    ensures BBlock(G, a) != BBlock(G, b)
  {
  }

  // Every write that keeps Writei's promises logs at least these ten.
  lemma TenAreLogged(s': State, L: set<nat>, r: nat, src: seq<Byte>)
    requires |src| == LEN && (forall k :: 0 <= k < LEN ==> src[k] != 0) && Wrote(s', L, r, src)
    ensures exists t: set<nat> :: |t| == 10 && t <= L
  {
    hide Ref, File, Spliced, Valid, Kept, Stays;
    HasAddrs(s');
    WritesAll(s', L, r, src);
    DataLogged(s', L, src, OFF);
    DataLogged(s', L, src, 12 * BSIZE);
    DataLogged(s', L, src, 13 * BSIZE);
    DataLogged(s', L, src, 14 * BSIZE);
    assert OFF / BSIZE == 11 && 12 * BSIZE / BSIZE == 12 && 13 * BSIZE / BSIZE == 13 && 14 * BSIZE / BSIZE == 14;
    IndirectLogged(s', L, src);
    OldRefKept(s', L, src);
    var a, b, c, d := Ref(s', 0, 12), Ref(s', 0, 13), Ref(s', 0, 14), Ref(s', 0, MAXFILE);
    BitmapLogged(s', L, src, 12);
    BitmapLogged(s', L, src, 13);
    BitmapLogged(s', L, src, 14);
    BitmapLogged(s', L, src, MAXFILE);
    NewRefsDiffer(s', L, src, 12, 13);
    NewRefsDiffer(s', L, src, 12, 14);
    NewRefsDiffer(s', L, src, 12, MAXFILE);
    NewRefsDiffer(s', L, src, 13, 14);
    NewRefsDiffer(s', L, src, 13, MAXFILE);
    NewRefsDiffer(s', L, src, 14, MAXFILE);
    TenIsTen(a, b, c, d);
    InodeLogged(s', L, src);
    assert Ten(a, b, c, d) <= L;
  }

  lemma HasAddrs(s': State)
    requires Valid(G, s') && |s'.inodes| > 0
    ensures |s'.inodes[0].addrs| == NDIRECT + 1
  {
  }

  lemma OldRefKept(s': State, L: set<nat>, src: seq<Byte>)
    requires |src| == LEN && Wrote(s', L, LEN, src)
    ensures Ref(s', 0, 11) == META + 11
  {
    hide Ref, File, Spliced, Valid;
    CrowdedRef(0, 11);
    assert Slot(Crowded(), 0, 11);
  }

  lemma InodeLogged(s': State, L: set<nat>, src: seq<Byte>)
    requires |src| == LEN && Wrote(s', L, LEN, src)
    ensures IBlock(G, 0) in L
  {
    SizeAfter(s', L, LEN, src);
    assert Crowded().inodes[0] == InodeOf(0);
  }

  // writei of LEN nonzero bytes at OFF in the crowded file system: complete, and exactly ten blocks logged.
  method WriteTen(fs: FileSystem, src: seq<Byte>) returns (r: int)
    requires fs.g == G && fs.Now() == Crowded() && fs.logged == {}
    requires |src| == LEN && forall k :: 0 <= k < LEN ==> src[k] != 0
    modifies fs
    ensures r == LEN && Wrote(fs.Now(), fs.logged, LEN, src) && |fs.logged| == 10
  {
    hide Valid, Kept, File, Spliced, Ref;
    CrowdedValid();
    assert Crowded().inodes[0] == InodeOf(0);
    r := fs.Writei(0, OFF, src);
    assert Wrote(fs.Now(), fs.logged, r, src);
    WritesAll(fs.Now(), fs.logged, r, src);
    TenAreLogged(fs.Now(), fs.logged, r, src);
    ghost var t: set<nat> :| |t| == 10 && t <= fs.logged;
    Subset(t, fs.logged);
    assert fs.logged - {} == fs.logged;
  }

  // There is such a file system and such a write.
  method CrowdedWrite() returns (fs: FileSystem)
    ensures fs.g == G && |fs.logged| == 10 && Valid(G, fs.Now())
  {
    fs := new FileSystem(G, Crowded());
    var src: seq<Byte> := seq(LEN, _ => 2);
    var r := WriteTen(fs, src);
  }

  // ----- itrunc -----

  // Inodes in block 32, bitmap in blocks 40 to 51, data from block 64 on.
  const H: Super := Super(12 * BPB, 64, 40, 32)

  // One file, with a block in the range of each bitmap block.
  function Scattered(): (s: State)
    ensures |s.used| == |s.blocks| == 12 * BPB && |s.inodes| == 1 && |s.inodes[0].addrs| == NDIRECT + 1
    ensures forall b :: 0 <= b < 12 * BPB ==>
      s.used[b] == (b < 64 || b % BPB == 64) && s.blocks[b] == ZeroBlock()
    ensures forall k :: 0 <= k <= NDIRECT ==> s.inodes[0].addrs[k] == if k < NDIRECT then k * BPB + 64 else 0
    ensures s.inodes[0].size == 12 * BSIZE
  {
    State(seq(12 * BPB, b requires 0 <= b => b < 64 || b % BPB == 64), seq(12 * BPB, _ => ZeroBlock()),
      [Inode(seq(NDIRECT + 1, k requires 0 <= k <= NDIRECT => if k < NDIRECT then k * BPB + 64 else 0), 12 * BSIZE)])
  }

  lemma ScatteredRef(k: nat)
    requires k <= MAXFILE
    ensures Ref(Scattered(), 0, k) == if k < NDIRECT then k * BPB + 64 else 0
  {
  }

  // A block in use is the file's.
  lemma ScatteredOwner(b: nat)
    requires 64 <= b < 12 * BPB && Scattered().used[b]
    ensures Slot(Scattered(), 0, b / BPB) && Ref(Scattered(), 0, b / BPB) == b
  {
    assert b == b / BPB * BPB + 64;
    ScatteredRef(b / BPB);
  }

  // The reference k != 0 determines its block and its slot.
  lemma ScatteredInRange(k: nat)
    requires k < NDIRECT
    ensures 64 <= k * BPB + 64 < 12 * BPB && (k * BPB + 64) / BPB == k && Scattered().used[k * BPB + 64]
  {
    assert (k * BPB + 64) % BPB == 64;
  }

  lemma ScatteredDisjoint()
    ensures Shape(H, Scattered()) && Disjoint(H, Scattered())
  {
    hide Ref;
    var s := Scattered();
    forall j, k | Slot(s, j, k) && Ref(s, j, k) != 0
      ensures j == 0 && 64 <= Ref(s, j, k) < 12 * BPB && s.used[Ref(s, j, k)] && k == Ref(s, j, k) / BPB
    {
      ScatteredRef(k);
      ScatteredInRange(k);
    }
    forall b | H.meta <= b < H.size && s.used[b] ensures IsRef(H, s, b) {
      ScatteredOwner(b);
    }
  }

  lemma ScatteredValid()
    ensures Valid(H, Scattered())
  {
    hide Ref, Disjoint;
    var s := Scattered();
    ScatteredDisjoint();
    forall k | 0 <= k < MAXFILE ensures Ref(s, 0, k) != 0 <==> k * BSIZE < s.inodes[0].size {
      ScatteredRef(k);
    }
  }

  // itrunc of this file logs thirteen blocks: more than an operation may.
  lemma TruncOverruns()
    ensures Valid(H, Scattered()) && |{IBlock(H, 0)} + BitmapsOf(H, Scattered(), 0)| > Log.MAXOPBLOCKS
  {
    hide Valid, Ref;
    ScatteredValid();
    var s := Scattered();
    forall m | 40 <= m < 52 ensures m in BitmapsOf(H, s, 0) {
      var k := m - 40;
      ScatteredRef(k);
      assert Slot(s, 0, k) && Ref(s, 0, k) == k * BPB + 64;
      assert RefersTo(s, 0, k * BPB + 64);
      assert BBlock(H, k * BPB + 64) == m;
    }
    assert Numbers(40, 12) <= BitmapsOf(H, s, 0);
    Subset(Numbers(40, 12), BitmapsOf(H, s, 0));
    Subset(BitmapsOf(H, s, 0), {IBlock(H, 0)} + BitmapsOf(H, s, 0));
  }
}
